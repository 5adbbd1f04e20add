/**
 * Command lines (`host/src/shell.rs`): quoting a word, environment assignments before a command, and how Windows lifts
 * them back out. `windows` is the platform the source is built for.
 */
module Shell {
  import opened Wrappers

  type Pair = (string, string)

  // ---- characters ----

  predicate Alphanumeric(c: char) { 'A' <= c <= 'Z' || 'a' <= c <= 'z' || '0' <= c <= '9' }

  predicate Plain(c: char, windows: bool) {
    Alphanumeric(c) || c in "-_./=@:+," || (windows && c == '\\')
  }

  predicate KeyChar(c: char) { Alphanumeric(c) || c == '_' }

  predicate ValidKey(k: string) { k != "" && forall i :: 0 <= i < |k| ==> KeyChar(k[i]) }

  /** Unicode's White_Space. */
  predicate Whitespace(c: char) {
    var n := c as int;
    0x9 <= n <= 0xD || n == 0x20 || n == 0x85 || n == 0xA0 || n == 0x1680 || 0x2000 <= n <= 0x200A || n == 0x2028 || n == 0x2029
    || n == 0x202F || n == 0x205F || n == 0x3000
  }

  // ---- strings ----

  function Without(s: string, c: char): (r: string)
    ensures c !in r
  {
    if s == "" then "" else (if s[0] == c then "" else [s[0]]) + Without(s[1..], c)
  }

  /** `s.replace('\'', "'\\''")` */
  function Escaped(s: string): string {
    if s == "" then "" else (if s[0] == '\'' then "'\\''" else [s[0]]) + Escaped(s[1..])
  }

  function TrimStart(s: string): (r: string)
    ensures |r| <= |s|
  {
    if s != "" && Whitespace(s[0]) then TrimStart(s[1..]) else s
  }

  /** The position of the first `c`. */
  function Find(s: string, c: char): (r: Option<nat>)
    ensures r.Some? ==> r.value < |s| && s[r.value] == c && c !in s[..r.value]
    ensures r.None? ==> c !in s
  {
    if s == "" then None
    else if s[0] == c then Some(0)
    else
      var rest := Find(s[1..], c);
      if rest.None? then None else assert s[..rest.value + 1] == [s[0]] + s[1..][..rest.value]; Some(rest.value + 1)
  }

  // ---- quoting ----

  function Quote(s: string, windows: bool): string {
    if s != "" && forall i :: 0 <= i < |s| ==> Plain(s[i], windows) then s
    else if windows then "\"" + Without(s, '"') + "\""
    else "'" + Escaped(s) + "'"
  }

  function Assignment(p: Pair, windows: bool): string { p.0 + "=" + Quote(p.1, windows) + " " }

  function Assignments(pairs: seq<Pair>, windows: bool): string {
    if pairs == [] then ""
    else (if ValidKey(pairs[0].0) then Assignment(pairs[0], windows) else "") + Assignments(pairs[1..], windows)
  }

  function Prefix(pairs: seq<Pair>, windows: bool): string {
    var out := Assignments(pairs, windows);
    if out == "" || windows then out else "env " + out
  }

  lemma AssignmentsStep(out: string, pairs: seq<Pair>, i: nat, windows: bool)
    requires i < |pairs|
    ensures out + Assignments(pairs[i..], windows) ==
      (if ValidKey(pairs[i].0) then out + Assignment(pairs[i], windows) else out) + Assignments(pairs[i + 1..], windows)
  {
    hide Assignment, ValidKey;
    assert pairs[i..][1..] == pairs[i + 1..];
    var more := Assignments(pairs[i + 1..], windows);
    assert out + (Assignment(pairs[i], windows) + more) == out + Assignment(pairs[i], windows) + more;
    assert "" + more == more;
  }

  method EnvPrefix(pairs: seq<Pair>, windows: bool) returns (out: string)
    ensures out == Prefix(pairs, windows)
  {
    hide Assignment, ValidKey;
    out := "";
    for i := 0 to |pairs|
      invariant out + Assignments(pairs[i..], windows) == Assignments(pairs, windows)
    {
      AssignmentsStep(out, pairs, i, windows);
      if ValidKey(pairs[i].0) {
        out := out + Assignment(pairs[i], windows);
      }
    }
    if out != "" && !windows {
      out := "env " + out;
    }
  }

  // ---- lifting assignments back out ----

  /** A leading `KEY=value`, and what follows it; none when the key is no identifier or its quotation does not end. */
  function Leading(rest: string): (r: Option<(Pair, string)>)
    ensures r.Some? ==> |r.value.1| < |rest|
  {
    match Find(rest, '=')
    case None => None
    case Some(eq) =>
      var key, after := rest[..eq], rest[eq + 1..];
      if !ValidKey(key) then None
      else if after != "" && (after[0] == '"' || after[0] == '\'') then
        match Find(after[1..], after[0])
        case None => None
        case Some(end) => Some(((key, after[1..][..end]), after[1..][end + 1..]))
      else
        match Find(after, ' ')
        case None => Some(((key, after), ""))
        case Some(space) => Some(((key, after[..space]), after[space + 1..]))
  }

  predicate Quoted(s: string) { s != "" && (s[0] == '"' || s[0] == '\'') }

  /** The value is in quotes of one kind that it does not hold. */
  predicate InQuotes(text: string, q: char, value: string, after: string) { text == [q] + value + [q] + after && q !in value }

  /** The text is `KEY=value` and what follows: the value in quotes of either kind, or plain up to a blank or the end. */
  predicate Begins(rest: string, key: string, value: string, after: string) {
    && ValidKey(key) && |rest| > |key| && rest[..|key|] == key && rest[|key|] == '='
    && var text := rest[|key| + 1..];
       if Quoted(text) then InQuotes(text, '"', value, after) || InQuotes(text, '\'', value, after)
       else ' ' !in value && (text == value + " " + after || (text == value && after == ""))
  }

  lemma FindParts(a: string, c: char, b: string)
    requires c !in a
    ensures Find(a + [c] + b, c) == Some(|a|)
    decreases |a|
  {
    var s := a + [c] + b;
    if a != "" {
      assert s[1..] == a[1..] + [c] + b;
      FindParts(a[1..], c, b);
    }
  }

  lemma KeyFound(rest: string, key: string)
    requires ValidKey(key) && |rest| > |key| && rest[..|key|] == key && rest[|key|] == '='
    ensures Find(rest, '=') == Some(|key|)
  {
    assert '=' !in key;
    assert rest == key + ['='] + rest[|key| + 1..];
    FindParts(key, '=', rest[|key| + 1..]);
  }

  lemma QuotedFound(text: string, q: char, value: string, after: string)
    requires InQuotes(text, q, value, after)
    ensures text != "" && text[0] == q && Find(text[1..], q) == Some(|value|)
    ensures text[1..][..|value|] == value && text[1..][|value| + 1..] == after
  {
    assert text[1..] == value + [q] + after;
    FindParts(value, q, after);
  }

  lemma PlainFound(text: string, value: string, after: string)
    requires ' ' !in value && (text == value + " " + after || (text == value && after == ""))
    ensures text == value && after == "" ==> Find(text, ' ') == None
    ensures text == value + " " + after ==> Find(text, ' ') == Some(|value|) && text[..|value|] == value && text[|value| + 1..] == after
  {
    if text == value + " " + after {
      FindParts(value, ' ', after);
    }
  }

  /** A leading assignment is taken off exactly when the text begins with one, and it is that one. */
  lemma LeadingExactly(rest: string, key: string, value: string, after: string)
    ensures Leading(rest) == Some(((key, value), after)) <==> Begins(rest, key, value, after)
  {
    hide Find, ValidKey;
    if Begins(rest, key, value, after) {
      KeyFound(rest, key);
      var text := rest[|key| + 1..];
      if Quoted(text) {
        QuotedFound(text, if InQuotes(text, '"', value, after) then '"' else '\'', value, after);
      } else {
        PlainFound(text, value, after);
      }
    } else if Leading(rest) == Some(((key, value), after)) {
      LeadingBegins(rest);
    }
  }

  lemma LeadingBegins(rest: string)
    requires Leading(rest).Some?
    ensures Begins(rest, Leading(rest).value.0.0, Leading(rest).value.0.1, Leading(rest).value.1)
  {
    var eq := Find(rest, '=').value;
    var text := rest[eq + 1..];
    var ((key, value), after) := Leading(rest).value;
    if Quoted(text) {
      var end := Find(text[1..], text[0]).value;
      assert text == [text[0]] + value + [text[0]] + after;
    } else if Find(text, ' ').Some? {
      assert text == value + " " + after;
    }
  }

  function Lifted(rest: string): (seq<Pair>, string)
    decreases |rest|
  {
    match Leading(rest)
    case None => ([], rest)
    case Some((pair, after)) =>
      var (env, command) := Lifted(TrimStart(after));
      ([pair] + env, command)
  }

  predicate StartsWithEnv(s: string) { |s| >= 4 && s[..4] == "env " }

  /** The line without leading blanks and one `env`. */
  function Start(line: string): string {
    var rest := TrimStart(line);
    if StartsWithEnv(rest) then TrimStart(rest[4..]) else rest
  }

  lemma LiftedStep(env: seq<Pair>, rest: string)
    ensures Leading(rest).None? ==> (env + Lifted(rest).0, Lifted(rest).1) == (env, rest)
    ensures Leading(rest).Some? ==>
      var (pair, after) := Leading(rest).value;
      (env + Lifted(rest).0, Lifted(rest).1) == (env + [pair] + Lifted(TrimStart(after)).0, Lifted(TrimStart(after)).1)
  {
    hide TrimStart, Leading;
    if Leading(rest).None? {
      assert env + [] == env;
    } else {
      var (pair, after) := Leading(rest).value;
      assert env + ([pair] + Lifted(TrimStart(after)).0) == env + [pair] + Lifted(TrimStart(after)).0;
    }
  }

  method SplitEnv(line: string) returns (env: seq<Pair>, rest: string)
    ensures (env, rest) == Lifted(Start(line))
  {
    hide Lifted, Leading;
    env := [];
    rest := TrimStart(line);
    if StartsWithEnv(rest) {
      rest := TrimStart(rest[4..]);
    }
    assert env + Lifted(rest).0 == Lifted(rest).0;
    while true
      invariant (env + Lifted(rest).0, Lifted(rest).1) == Lifted(Start(line))
      decreases |rest|
    {
      var leading := Leading(rest);
      LiftedStep(env, rest);
      if leading.None? {
        return;
      }
      env := env + [leading.value.0];
      rest := TrimStart(leading.value.1);
    }
  }

  // ---- the Windows round trip ----

  /** The pairs a prefix carries: those with a valid key, without the double quotes `cmd` cannot hold. */
  function Carried(pairs: seq<Pair>): seq<Pair> {
    if pairs == [] then []
    else (if ValidKey(pairs[0].0) then [(pairs[0].0, Without(pairs[0].1, '"'))] else []) + Carried(pairs[1..])
  }

  lemma {:induction false} WithoutNone(s: string, c: char)
    requires c !in s
    ensures Without(s, c) == s
  {
    if s != "" {
      assert s[0] in s && c !in s[1..];
      WithoutNone(s[1..], c);
    }
  }

  lemma {:induction false} FindFirst(a: string, c: char, b: string)
    requires c !in a
    ensures Find(a + [c] + b, c) == Some(|a|)
  {
    var s := a + [c] + b;
    if a == "" {
      assert s[0] == c;
    } else {
      assert s[0] == a[0] && a[0] in a;
      assert s[1..] == a[1..] + [c] + b;
      FindFirst(a[1..], c, b);
    }
  }

  /** Where a string made of three parts comes apart. */
  lemma Parts(a: string, c: char, b: string)
    ensures (a + [c] + b)[..|a|] == a && (a + [c] + b)[|a| + 1..] == b
  {
  }

  lemma QuotedValue(v: string)
    ensures
      var q := Quote(v, true);
      || (q == v && v != "" && ' ' !in v && v[0] != '"' && v[0] != '\'' && '"' !in v)
      || q == "\"" + Without(v, '"') + "\""
  {
  }

  lemma KeyHasNoEquals(k: string)
    requires ValidKey(k)
    ensures '=' !in k
  {
    forall i | 0 <= i < |k|
      ensures k[i] != '='
    {
      assert KeyChar(k[i]);
    }
  }

  /** An assignment the prefix wrote is read back whole. */
  lemma LeadingAssignment(p: Pair, rest: string)
    requires ValidKey(p.0)
    ensures Leading(Assignment(p, true) + rest).Some?
    ensures
      var (pair, after) := Leading(Assignment(p, true) + rest).value;
      pair == (p.0, Without(p.1, '"')) && TrimStart(after) == TrimStart(rest)
  {
    hide Quote, ValidKey, TrimStart, Whitespace, Without;
    var q := Quote(p.1, true);
    var line := Assignment(p, true) + rest;
    KeyHasNoEquals(p.0);
    assert line == p.0 + ['='] + (q + " " + rest);
    FindFirst(p.0, '=', q + " " + rest);
    Parts(p.0, '=', q + " " + rest);
    QuotedValue(p.1);
    if q == p.1 && p.1 != "" && p.1[0] != '"' {
      PlainValue(p.1, rest);
    } else {
      QuotedRest(Without(p.1, '"'), rest);
    }
  }

  lemma PlainValue(v: string, rest: string)
    requires v != "" && ' ' !in v && '"' !in v
    ensures
      var after := v + " " + rest;
      Find(after, ' ') == Some(|v|) && after[..|v|] == v && after[|v| + 1..] == rest && Without(v, '"') == v && after[0] == v[0]
  {
    assert v + " " + rest == v + [' '] + rest;
    FindFirst(v, ' ', rest);
    Parts(v, ' ', rest);
    WithoutNone(v, '"');
  }

  lemma QuotedRest(v: string, rest: string)
    requires '"' !in v
    ensures
      var after := "\"" + v + "\"" + " " + rest;
      && after[0] == '"' && Find(after[1..], '"') == Some(|v|) && after[1..][..|v|] == v
      && TrimStart(after[1..][|v| + 1..]) == TrimStart(rest)
  {
    var after := "\"" + v + "\"" + " " + rest;
    assert after[1..] == v + ['"'] + (" " + rest);
    FindFirst(v, '"', " " + rest);
    Parts(v, '"', " " + rest);
    assert (" " + rest)[1..] == rest;
  }

  /** A line that starts with a key keeps its start when blanks and `env` are stripped. */
  lemma AssignmentStarts(p: Pair, rest: string)
    requires ValidKey(p.0)
    ensures TrimStart(Assignment(p, true) + rest) == Assignment(p, true) + rest
    ensures !StartsWithEnv(Assignment(p, true) + rest)
  {
    var line := Assignment(p, true) + rest;
    assert line[0] == p.0[0] && KeyChar(p.0[0]);
    assert |p.0| > 3 ==> line[3] == p.0[3] && KeyChar(p.0[3]);
    assert |p.0| <= 3 ==> line[|p.0|] == '=';
  }

  lemma {:induction false} LiftsPrefix(pairs: seq<Pair>, cmd: string)
    ensures
      var (env, command) := Lifted(TrimStart(cmd));
      Lifted(TrimStart(Assignments(pairs, true) + cmd)) == (Carried(pairs) + env, command)
  {
    hide Leading, TrimStart, StartsWithEnv, Assignment, ValidKey;
    var env := Lifted(TrimStart(cmd)).0;
    if pairs == [] {
      assert Assignments(pairs, true) + cmd == cmd;
      assert Carried(pairs) + env == env;
    } else {
      var rest := Assignments(pairs[1..], true) + cmd;
      LiftsPrefix(pairs[1..], cmd);
      if ValidKey(pairs[0].0) {
        var line := Assignment(pairs[0], true) + rest;
        assert Assignments(pairs, true) + cmd == line;
        LeadingAssignment(pairs[0], rest);
        AssignmentStarts(pairs[0], rest);
        LiftsOne(line, rest, (pairs[0].0, Without(pairs[0].1, '"')));
        CarriedFirst(pairs, env);
      } else {
        assert Assignments(pairs, true) + cmd == rest;
        assert Carried(pairs) == Carried(pairs[1..]);
      }
    }
  }

  lemma LiftsOne(line: string, rest: string, pair: Pair)
    requires Leading(line).Some? && Leading(line).value.0 == pair && TrimStart(Leading(line).value.1) == TrimStart(rest)
    ensures Lifted(line) == ([pair] + Lifted(TrimStart(rest)).0, Lifted(TrimStart(rest)).1)
  {
  }

  lemma CarriedFirst(pairs: seq<Pair>, env: seq<Pair>)
    requires pairs != [] && ValidKey(pairs[0].0)
    ensures Carried(pairs) + env == [(pairs[0].0, Without(pairs[0].1, '"'))] + (Carried(pairs[1..]) + env)
  {
  }

  /** What `split_env` makes of a prefix and a command: of the command alone it strips one `env` only if nothing precedes it. */
  lemma StartOfPrefix(pairs: seq<Pair>, cmd: string)
    ensures Start(Prefix(pairs, true) + cmd) ==
      if Carried(pairs) == [] then Start(cmd) else TrimStart(Assignments(pairs, true) + cmd)
    decreases |pairs|
  {
    if pairs == [] {
      assert Prefix(pairs, true) + cmd == cmd;
    } else if ValidKey(pairs[0].0) {
      var rest := Assignments(pairs[1..], true) + cmd;
      assert Assignments(pairs, true) + cmd == Assignment(pairs[0], true) + rest;
      AssignmentStarts(pairs[0], rest);
    } else {
      assert Assignments(pairs, true) == Assignments(pairs[1..], true);
      assert Carried(pairs) == Carried(pairs[1..]);
      StartOfPrefix(pairs[1..], cmd);
    }
  }

  /** The command itself begins with a whole assignment, or with `env` when no assignment was put before it. */
  predicate ReadsAsPrefix(pairs: seq<Pair>, cmd: string) {
    Leading(TrimStart(cmd)).Some? || (Carried(pairs) == [] && StartsWithEnv(TrimStart(cmd)))
  }

  lemma LiftedOnlyEmpty(rest: string)
    ensures Lifted(rest).0 == [] <==> Leading(rest).None?
    ensures Leading(rest).None? ==> Lifted(rest) == ([], rest)
  {
  }

  lemma {:induction false} LiftedShrinks(rest: string)
    ensures |Lifted(rest).1| <= |rest|
    decreases |rest|
  {
    if Leading(rest).Some? {
      LiftedShrinks(TrimStart(Leading(rest).value.1));
    }
  }

  /**
   * On Windows, splitting a prefix and a command gives back the pairs with valid keys, in order and without double quotes,
   * and the command without leading blanks, if and only if the command does not itself read as a prefix. It gives back the
   * command as it was passed if and only if, besides, it begins with no blank.
   */
  lemma WindowsRoundTrip(pairs: seq<Pair>, cmd: string)
    ensures Lifted(Start(Prefix(pairs, true) + cmd)) == (Carried(pairs), TrimStart(cmd)) <==> !ReadsAsPrefix(pairs, cmd)
    ensures Lifted(Start(Prefix(pairs, true) + cmd)) == (Carried(pairs), cmd) <==> !ReadsAsPrefix(pairs, cmd) && TrimStart(cmd) == cmd
  {
    hide Leading, Lifted, TrimStart, StartsWithEnv;
    StartOfPrefix(pairs, cmd);
    LiftsPrefix(pairs, cmd);
    LiftedOnlyEmpty(TrimStart(cmd));
    LiftedShrinks(TrimStart(cmd));
    AppendsNothing(Carried(pairs), Lifted(TrimStart(cmd)).0);
    if Carried(pairs) == [] {
      StartShortens(cmd);
      LiftedShrinks(Start(cmd));
    }
  }

  /** It fails for a command that starts with `env`, */
  lemma EnvIsLost()
    ensures ReadsAsPrefix([], "env x") && Lifted(Start(Prefix([], true) + "env x")) == ([], "x")
  {
    assert Prefix([], true) + "env x" == "env x" && "env x"[4..] == "x";
  }

  /** for one that starts with a whole assignment, */
  lemma AssignmentIsLost()
    ensures ReadsAsPrefix([], "A=1") && Lifted(Start(Prefix([], true) + "A=1")) == ([("A", "1")], "")
  {
    var line := "A=1";
    assert Prefix([], true) + line == line && TrimStart(line) == line && !StartsWithEnv(line) && Start(line) == line;
    assert line[1..][0] == '=' && Find(line[1..], '=') == Some(0);
    assert line[..1] == "A" && line[2..] == "1" && ValidKey("A");
    assert Find("1", ' ') == None;
    assert Leading(line) == Some((("A", "1"), ""));
    LiftsOne(line, "", ("A", "1"));
    assert Lifted("") == ([], "") && [("A", "1")] + [] == [("A", "1")];
  }

  /** and, for the command as it was passed, for one that starts with a blank. */
  lemma BlankIsLost()
    ensures !ReadsAsPrefix([], " x") && Lifted(Start(Prefix([], true) + " x")) == ([], "x")
  {
    assert Prefix([], true) + " x" == " x" && " x"[1..] == "x";
  }

  lemma StartShortens(cmd: string)
    ensures StartsWithEnv(TrimStart(cmd)) ==> |Start(cmd)| < |TrimStart(cmd)|
    ensures !StartsWithEnv(TrimStart(cmd)) ==> Start(cmd) == TrimStart(cmd)
  {
  }

  lemma AppendsNothing(a: seq<Pair>, b: seq<Pair>)
    ensures a + b == a <==> b == []
  {
    assert |a + b| == |a| + |b|;
  }

  // ---- how a POSIX shell reads words ----

  predicate Blank(c: char) { c == ' ' || c == '\t' || c == '\n' }

  /** The characters section 2.2 of POSIX.1-2017 XCU has quoted, `=` and the blanks and quotes read here apart. */
  predicate Special(c: char) { c in "|&;<>()$`\"*?[#~%" }

  /**
   * The words of an input (POSIX.1-2017 XCU sections 2.2.1, 2.2.2 and 2.3): a backslash keeps the next character and
   * joins lines, single quotes keep everything up to the next one, blanks end a word. `word` is the word being read, `quoted`
   * whether inside single quotes. No result for an input that ends inside a quotation or that has a special character
   * outside one.
   */
  function Words(input: string, word: Option<string>, quoted: bool): Option<seq<string>>
    decreases |input|
  {
    var soFar := if word.Some? then word.value else "";
    if input == "" then
      if quoted then None else Some(if word.Some? then [word.value] else [])
    else if quoted then
      if input[0] == '\'' then Words(input[1..], Some(soFar), false) else Words(input[1..], Some(soFar + [input[0]]), true)
    else if input[0] == '\'' then Words(input[1..], Some(soFar), true)
    else if input[0] == '\\' then
      if |input| == 1 then None
      else if input[1] == '\n' then Words(input[2..], word, false)
      else Words(input[2..], Some(soFar + [input[1]]), false)
    else if Blank(input[0]) then
      match Words(input[1..], None, false)
      case None => None
      case Some(more) => Some((if word.Some? then [word.value] else []) + more)
    else if Special(input[0]) then None
    else Words(input[1..], Some(soFar + [input[0]]), false)
  }

  lemma PlainIsOrdinary(c: char)
    requires Plain(c, false)
    ensures c != '\'' && c != '\\' && !Blank(c) && !Special(c)
  {
  }

  /** Ordinary characters are read as they are. */
  lemma {:induction false} ReadsPlain(s: string, rest: string, word: string)
    requires forall i :: 0 <= i < |s| ==> Plain(s[i], false)
    ensures Words(s + rest, Some(word), false) == Words(rest, Some(word + s), false)
  {
    if s == "" {
      assert s + rest == rest && word + s == word;
    } else {
      PlainIsOrdinary(s[0]);
      assert (s + rest)[0] == s[0] && (s + rest)[1..] == s[1..] + rest;
      ReadsPlain(s[1..], rest, word + [s[0]]);
      assert word + [s[0]] + s[1..] == word + s;
    }
  }

  /** A quote in a quoted word: out of the quotation, an escaped quote, and in again. */
  lemma ReadsQuoteMark(rest: string, word: string)
    ensures Words("'\\''" + rest, Some(word), true) == Words(rest, Some(word + "'"), true)
  {
    var input := "'\\''" + rest;
    assert input[0] == '\'' && input[1..] == "\\''" + rest;
    assert input[1..][0] == '\\' && input[1..][1] == '\'' && input[1..][2..] == "'" + rest;
    assert input[1..][2..][0] == '\'' && input[1..][2..][1..] == rest;
    assert Words(input, Some(word), true) == Words(input[1..], Some(word), false);
    assert Words(input[1..], Some(word), false) == Words(input[1..][2..], Some(word + ['\'']), false);
  }

  lemma {:induction false} ReadsEscaped(s: string, rest: string, word: string)
    ensures Words(Escaped(s) + "'" + rest, Some(word), true) == Words(rest, Some(word + s), false)
  {
    if s == "" {
      assert Escaped(s) + "'" + rest == "'" + rest && ("'" + rest)[1..] == rest && word + s == word;
    } else {
      var tail := Escaped(s[1..]) + "'" + rest;
      ReadsEscaped(s[1..], rest, word + [s[0]]);
      assert word + [s[0]] + s[1..] == word + s;
      if s[0] == '\'' {
        assert Escaped(s) + "'" + rest == "'\\''" + tail;
        ReadsQuoteMark(tail, word);
        assert word + "'" == word + [s[0]];
      } else {
        assert Escaped(s) + "'" + rest == [s[0]] + tail;
        assert ([s[0]] + tail)[0] == s[0] && ([s[0]] + tail)[1..] == tail;
      }
    }
  }

  /** Reading a quoted word adds exactly the word to what is being read. */
  lemma ReadsQuoted(s: string, rest: string, word: Option<string>)
    ensures Words(Quote(s, false) + rest, word, false) == Words(rest, Some((if word.Some? then word.value else "") + s), false)
  {
    hide Escaped, Plain, Words;
    if s != "" && forall i :: 0 <= i < |s| ==> Plain(s[i], false) {
      ReadsPlainWord(s, rest, word);
    } else {
      ReadsInQuotes(s, rest, word);
    }
  }

  lemma ReadsPlainWord(s: string, rest: string, word: Option<string>)
    requires s != "" && forall i :: 0 <= i < |s| ==> Plain(s[i], false)
    ensures Words(s + rest, word, false) == Words(rest, Some((if word.Some? then word.value else "") + s), false)
  {
    hide Plain;
    var soFar := if word.Some? then word.value else "";
    PlainIsOrdinary(s[0]);
    assert (s + rest)[0] == s[0] && (s + rest)[1..] == s[1..] + rest;
    ReadsPlain(s[1..], rest, soFar + [s[0]]);
    assert soFar + [s[0]] + s[1..] == soFar + s;
  }

  lemma ReadsInQuotes(s: string, rest: string, word: Option<string>)
    ensures Words("'" + Escaped(s) + "'" + rest, word, false) == Words(rest, Some((if word.Some? then word.value else "") + s), false)
  {
    hide Escaped;
    var soFar := if word.Some? then word.value else "";
    var input := "'" + Escaped(s) + "'" + rest;
    assert input[0] == '\'' && input[1..] == Escaped(s) + "'" + rest;
    ReadsEscaped(s, rest, soFar);
  }

  /** The shell reads `quote(s)` as the one word `s`, whatever `s` is. */
  lemma ReadsOneWord(s: string)
    ensures Words(Quote(s, false), None, false) == Some([s])
  {
    assert Quote(s, false) + "" == Quote(s, false) && "" + s == s;
    ReadsQuoted(s, "", None);
  }

  function Line(words: seq<string>): string {
    if words == [] then "" else Quote(words[0], false) + " " + Line(words[1..])
  }

  /** A quoted word and a blank: the word, and then the words of the rest. */
  lemma ReadsWord(s: string, rest: string)
    requires Words(rest, None, false).Some?
    ensures Words(Quote(s, false) + (" " + rest), None, false) == Some([s] + Words(rest, None, false).value)
  {
    hide Quote, Escaped;
    ReadsQuoted(s, " " + rest, None);
    assert (" " + rest)[0] == ' ' && (" " + rest)[1..] == rest && "" + s == s;
  }

  /** Quoted words one after the other are read as those words. */
  lemma {:induction false} ReadsLine(words: seq<string>, rest: string)
    requires Words(rest, None, false).Some?
    ensures Words(Line(words) + rest, None, false) == Some(words + Words(rest, None, false).value)
  {
    hide Words, Quote;
    var after := Words(rest, None, false).value;
    if words == [] {
      assert Line(words) + rest == rest;
      assert words + after == after;
    } else {
      var tail := Line(words[1..]) + rest;
      ReadsLine(words[1..], rest);
      ReadsWord(words[0], tail);
      assert Line(words) + rest == Quote(words[0], false) + (" " + tail);
      assert [words[0]] + (words[1..] + after) == words + after;
    }
  }

  /** The words `env` is given: the pairs with valid keys, joined by `=`. */
  function EnvWords(pairs: seq<Pair>): seq<string> {
    if pairs == [] then []
    else (if ValidKey(pairs[0].0) then [pairs[0].0 + "=" + pairs[0].1] else []) + EnvWords(pairs[1..])
  }

  lemma KeyIsPlain(k: string)
    requires ValidKey(k)
    ensures forall i :: 0 <= i < |k + "="| ==> Plain((k + "=")[i], false)
  {
    forall i | 0 <= i < |k + "="|
      ensures Plain((k + "=")[i], false)
    {
      assert i < |k| ==> KeyChar(k[i]);
    }
  }

  lemma ReadsAssignment(p: Pair, rest: string)
    requires ValidKey(p.0) && Words(rest, None, false).Some?
    ensures Words(Assignment(p, false) + rest, None, false) == Some([p.0 + "=" + p.1] + Words(rest, None, false).value)
  {
    var head := p.0 + "=";
    KeyIsPlain(p.0);
    PlainIsOrdinary(head[0]);
    var input := Assignment(p, false) + rest;
    assert input == head + (Quote(p.1, false) + (" " + rest));
    assert input[0] == head[0] && input[1..] == head[1..] + (Quote(p.1, false) + (" " + rest));
    ReadsPlain(head[1..], Quote(p.1, false) + (" " + rest), "" + [head[0]]);
    assert "" + [head[0]] + head[1..] == head;
    ReadsQuoted(p.1, " " + rest, Some(head));
    assert (" " + rest)[0] == ' ' && (" " + rest)[1..] == rest;
  }

  lemma {:induction false} ReadsAssignments(pairs: seq<Pair>, rest: string)
    requires Words(rest, None, false).Some?
    ensures Words(Assignments(pairs, false) + rest, None, false) == Some(EnvWords(pairs) + Words(rest, None, false).value)
  {
    hide Words, Assignment, ValidKey;
    var after := Words(rest, None, false).value;
    if pairs == [] {
      assert Assignments(pairs, false) + rest == rest;
      assert EnvWords(pairs) + after == after;
    } else {
      var tail := Assignments(pairs[1..], false) + rest;
      ReadsAssignments(pairs[1..], rest);
      if ValidKey(pairs[0].0) {
        ReadsAssignment(pairs[0], tail);
        assert Assignments(pairs, false) + rest == Assignment(pairs[0], false) + tail;
        assert [pairs[0].0 + "=" + pairs[0].1] + (EnvWords(pairs[1..]) + after) == EnvWords(pairs) + after;
      } else {
        assert Assignments(pairs, false) + rest == tail;
        assert EnvWords(pairs) == EnvWords(pairs[1..]);
      }
    }
  }

  lemma EnvIsPlain()
    ensures Quote("env", false) == "env"
  {
    forall i | 0 <= i < |"env"|
      ensures Plain("env"[i], false)
    {
      assert "env"[i] == 'e' || "env"[i] == 'n' || "env"[i] == 'v';
    }
  }

  lemma NoAssignments(pairs: seq<Pair>)
    ensures Assignments(pairs, false) == "" <==> EnvWords(pairs) == []
  {
    if pairs != [] {
      NoAssignments(pairs[1..]);
    }
  }

  /** A POSIX shell reads the prefix as `env` and its assignments, each one word with its value as given, before the command. */
  lemma ReadsPrefix(pairs: seq<Pair>, cmd: string)
    requires Words(cmd, None, false).Some?
    ensures Words(Prefix(pairs, false) + cmd, None, false) ==
      Some((if EnvWords(pairs) == [] then [] else ["env"] + EnvWords(pairs)) + Words(cmd, None, false).value)
  {
    hide Words, Assignments, EnvWords, Quote;
    var tail, after := Assignments(pairs, false) + cmd, Words(cmd, None, false).value;
    ReadsAssignments(pairs, cmd);
    NoAssignments(pairs);
    if Assignments(pairs, false) == "" {
      assert Prefix(pairs, false) + cmd == cmd;
      assert [] + after == after;
    } else {
      EnvIsPlain();
      ReadsWord("env", tail);
      assert Prefix(pairs, false) + cmd == "env" + (" " + tail);
      assert ["env"] + (EnvWords(pairs) + after) == ["env"] + EnvWords(pairs) + after;
    }
  }
}
