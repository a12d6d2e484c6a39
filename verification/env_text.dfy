/** Lines, trimming and the KEY=VALUE line shared by the writer and both readers of the .env file. */
module EnvText {
  import opened Basics

  /** Unicode White_Space, which TrimSpace strips. */
  predicate IsSpace(c: char) {
    c == ' ' || '\t' <= c <= '\r' || c == '\U{85}' || c == '\U{A0}' || c == '\U{1680}'
    || '\U{2000}' <= c <= '\U{200A}' || c == '\U{2028}' || c == '\U{2029}' || c == '\U{202F}'
    || c == '\U{205F}' || c == '\U{3000}'
  }

  function TrimLeft(s: string): string {
    if s != "" && IsSpace(s[0]) then TrimLeft(s[1..]) else s
  }

  function TrimRight(s: string): string {
    if s != "" && IsSpace(s[|s| - 1]) then TrimRight(s[..|s| - 1]) else s
  }

  function Trim(s: string): string { TrimRight(TrimLeft(s)) }

  lemma {:induction false} TrimLeftIsSuffix(s: string)
    ensures |TrimLeft(s)| <= |s| && TrimLeft(s) == s[|s| - |TrimLeft(s)|..]
    ensures TrimLeft(s) != "" ==> !IsSpace(TrimLeft(s)[0])
  {
    if s != "" && IsSpace(s[0]) {
      TrimLeftIsSuffix(s[1..]);
    }
  }

  lemma {:induction false} TrimRightIsPrefix(s: string)
    ensures |TrimRight(s)| <= |s| && TrimRight(s) == s[..|TrimRight(s)|]
    ensures TrimRight(s) != "" ==> !IsSpace(TrimRight(s)[|TrimRight(s)| - 1])
  {
    if s != "" && IsSpace(s[|s| - 1]) {
      TrimRightIsPrefix(s[..|s| - 1]);
    }
  }

  predicate HasNewline(s: string) { '\n' in s }

  ghost predicate OneLiners(lines: seq<string>) {
    forall i :: 0 <= i < |lines| ==> !HasNewline(lines[i])
  }

  function Split(s: string): (r: seq<string>)
    ensures |r| >= 1 && OneLiners(r)
  {
    if s == "" then [""]
    else
      var rest := Split(s[1..]);
      if s[0] == '\n' then [""] + rest else [[s[0]] + rest[0]] + rest[1..]
  }

  function Join(lines: seq<string>): string {
    if lines == [] then ""
    else if |lines| == 1 then lines[0]
    else lines[0] + "\n" + Join(lines[1..])
  }

  lemma {:induction false} SplitFirst(a: string, s: string)
    requires !HasNewline(a)
    ensures Split(a + "\n" + s) == [a] + Split(s)
  {
    if a == "" {
      assert a + "\n" + s == "\n" + s;
      assert ("\n" + s)[1..] == s;
    } else {
      var t := a + "\n" + s;
      assert t[1..] == a[1..] + "\n" + s;
      SplitFirst(a[1..], s);
      assert [a[0]] + a[1..] == a;
    }
  }

  lemma {:induction false} SplitOne(a: string)
    requires !HasNewline(a)
    ensures Split(a) == [a]
  {
    if a != "" {
      SplitOne(a[1..]);
      assert [a[0]] + a[1..] == a;
    }
  }

  /** Splitting undoes joining. */
  lemma {:induction false} SplitJoin(lines: seq<string>)
    requires lines != [] && OneLiners(lines)
    ensures Split(Join(lines)) == lines
  {
    if |lines| == 1 {
      SplitOne(lines[0]);
    } else {
      SplitJoin(lines[1..]);
      SplitFirst(lines[0], Join(lines[1..]));
      assert lines == [lines[0]] + lines[1..];
    }
  }

  lemma {:induction false} JoinSnoc(lines: seq<string>, last: string)
    requires lines != []
    ensures Join(lines + [last]) == Join(lines) + "\n" + last
  {
    if |lines| > 1 {
      assert (lines + [last])[1..] == lines[1..] + [last];
      JoinSnoc(lines[1..], last);
    }
  }

  function IndexOf(s: string, c: char): (i: int)
    ensures -1 <= i < |s|
  {
    if s == "" then -1
    else if s[0] == c then 0
    else
      var i := IndexOf(s[1..], c);
      if i < 0 then -1 else i + 1
  }

  lemma {:induction false} IndexAfter(a: string, c: char, b: string)
    requires c !in a
    ensures IndexOf(a + [c] + b, c) == |a|
  {
    if a != "" {
      assert (a + [c] + b)[1..] == a[1..] + [c] + b;
      IndexAfter(a[1..], c, b);
    }
  }

  function Unquote(val: string): string {
    if |val| >= 2 && (val[0] == '"' || val[0] == '\'') && val[|val| - 1] == val[0] then val[1..|val| - 1] else val
  }

  datatype Pair = Pair(key: string, val: string)

  const EXPORT := "export "

  /** A KEY=VALUE line, or None for a blank line, a comment, or a line without a key. */
  function ParseLine(raw: string): Option<Pair> {
    var line := Trim(raw);
    if line == "" || line[0] == '#' then None
    else
      var body := if EXPORT <= line then line[|EXPORT|..] else line;
      var eq := IndexOf(body, '=');
      if eq <= 0 then None else Some(Pair(Trim(body[..eq]), Unquote(Trim(body[eq + 1..]))))
  }

  // ── the line the writer writes ──

  predicate QuoteTrigger(c: char) { c == ' ' || c == '\t' || c == '#' || c == '"' || c == '\'' }

  predicate NeedsQuotes(v: string) { exists i :: 0 <= i < |v| && QuoteTrigger(v[i]) }

  /** No escaping: the readers strip one pair of quotes and nothing else. */
  function QuoteEnvValue(v: string): string {
    if v == "" then "" else if NeedsQuotes(v) then "\"" + v + "\"" else v
  }

  /** The shape of the keys the Settings page manages. */
  predicate ManagedShape(key: string) {
    key != "" && forall i :: 0 <= i < |key| ==> 'A' <= key[i] <= 'Z' || '0' <= key[i] <= '9' || key[i] == '_'
  }

  function Assignment(key: string, val: string): string { key + "=" + QuoteEnvValue(val) }

  lemma {:induction false} TrimRightKeepsHead(a: string, b: string)
    requires a != "" && !IsSpace(a[|a| - 1])
    ensures TrimRight(a + b) == a + TrimRight(b)
  {
    if b == "" {
      assert a + b == a;
    } else if IsSpace(b[|b| - 1]) {
      assert (a + b)[..|a + b| - 1] == a + b[..|b| - 1];
      TrimRightKeepsHead(a, b[..|b| - 1]);
    }
  }

  lemma {:induction false} TrimSolidFirst(s: string)
    requires s != "" && !IsSpace(s[0])
    ensures Trim(s) == TrimRight(s)
  {
  }

  lemma {:induction false} TrimSkipsFirst(s: string)
    requires s != "" && IsSpace(s[0])
    ensures Trim(s) == Trim(s[1..])
  {
  }

  lemma {:induction false} TrimDropsLast(s: string)
    requires s != "" && IsSpace(s[|s| - 1])
    ensures Trim(s) == Trim(s[..|s| - 1])
  {
    var t := s[..|s| - 1];
    if |s| == 1 {
      TrimSkipsFirst(s);
      assert s[1..] == t;
    } else if IsSpace(s[0]) {
      TrimSkipsFirst(s);
      TrimSkipsFirst(t);
      assert s[1..][..|s[1..]| - 1] == t[1..];
      TrimDropsLast(s[1..]);
    } else {
      TrimSolidFirst(s);
      TrimSolidFirst(t);
      assert TrimRight(s) == TrimRight(t);
    }
  }

  /** Trimming the end first changes nothing. */
  lemma {:induction false} TrimOfTrimRight(s: string)
    ensures Trim(TrimRight(s)) == Trim(s)
  {
    if s != "" && IsSpace(s[|s| - 1]) {
      var t := s[..|s| - 1];
      TrimOfTrimRight(t);
      TrimDropsLast(s);
    } else {
      assert TrimRight(s) == s;
    }
  }

  /** Reading `KEY=w` back: the key, and `w` trimmed and unquoted. */
  lemma {:induction false} ReadBack(key: string, w: string)
    requires ManagedShape(key)
    ensures ParseLine(key + "=" + w) == Some(Pair(key, Unquote(Trim(w))))
  {
    var raw, head := key + "=" + w, key + "=";
    assert raw == head + w && !IsSpace(raw[0]);
    assert TrimLeft(raw) == raw;
    TrimRightKeepsHead(head, w);
    var line, tail := Trim(raw), TrimRight(w);
    assert line == key + ['='] + tail;
    assert line[0] != 'e' && line[0] != '#';
    assert !(EXPORT <= line) by {
      assert EXPORT[0] == 'e';
    }
    assert '=' !in key;
    IndexAfter(key, '=', tail);
    assert line[..|key|] == key && line[|key| + 1..] == tail;
    assert !IsSpace(key[0]) && !IsSpace(key[|key| - 1]);
    assert Trim(key) == key;
    TrimOfTrimRight(w);
  }

  /** A value survives being written and read back exactly when it needs quotes or has no outer space. */
  predicate Representable(v: string) { NeedsQuotes(v) || Trim(v) == v }

  lemma {:induction false} NoQuotesInside(v: string)
    requires !NeedsQuotes(v)
    ensures Trim(v) != "" ==> Trim(v)[0] != '"' && Trim(v)[0] != '\''
  {
    var l := TrimLeft(v);
    TrimLeftIsSuffix(v);
    TrimRightIsPrefix(l);
    if l != "" {
      assert l[0] == v[|v| - |l|];
      assert !QuoteTrigger(v[|v| - |l|]);
    }
  }

  lemma {:induction false} ValueSurvives(v: string)
    ensures Unquote(Trim(QuoteEnvValue(v))) == v <==> Representable(v)
  {
    var q := QuoteEnvValue(v);
    if v == "" {
      assert Trim(v) == v;
    } else if NeedsQuotes(v) {
      assert q[0] == '"' && q[|q| - 1] == '"';
      assert TrimLeft(q) == q && TrimRight(q) == q;
      assert q[1..|q| - 1] == v;
    } else {
      var t := Trim(v);
      NoQuotesInside(v);
      assert Unquote(t) == t;
    }
  }

  /** A saved line reads back as its key and value exactly when the value is representable. */
  lemma {:induction false} AssignmentReadsBack(key: string, v: string)
    requires ManagedShape(key)
    ensures ParseLine(Assignment(key, v)) == Some(Pair(key, Unquote(Trim(QuoteEnvValue(v)))))
    ensures ParseLine(Assignment(key, v)) == Some(Pair(key, v)) <==> Representable(v)
  {
    ReadBack(key, QuoteEnvValue(v));
    ValueSurvives(v);
  }
}
