/**
 The .env writer of the Settings page and the two readers of what it writes. A file is its text, or
 None when it is missing.
 */
module EnvFiles {
  import opened Basics
  import opened EnvText

  function Lines(text: Option<string>): (r: seq<string>)
    ensures OneLiners(r)
  {
    if text.Some? then Split(text.value) else []
  }

  /** What each line assigns, if anything. */
  function Parsed(lines: seq<string>): (r: seq<Option<Pair>>)
    ensures |r| == |lines|
    ensures forall i :: 0 <= i < |lines| ==> r[i] == ParseLine(lines[i])
  {
    seq(|lines|, i requires 0 <= i < |lines| => ParseLine(lines[i]))
  }

  // ── the display reader: the last line of a key counts ──

  function LastWins(ps: seq<Option<Pair>>): map<string, string> {
    if ps == [] then map[]
    else
      var rest, p := LastWins(ps[..|ps| - 1]), ps[|ps| - 1];
      if p.Some? then rest[p.value.key := p.value.val] else rest
  }

  method ParseEnvFile(text: Option<string>) returns (out: map<string, string>)
    ensures out == LastWins(Parsed(Lines(text)))
  {
    hide ParseLine;
    out := map[];
    var lines := Lines(text);
    ghost var ps := Parsed(lines);
    for i := 0 to |lines|
      invariant out == LastWins(ps[..i])
    {
      assert ps[..i + 1][..i] == ps[..i];
      var p := ParseLine(lines[i]);
      if p.Some? {
        out := out[p.value.key := p.value.val];
      }
    }
    assert ps[..|lines|] == ps;
  }

  // ── the process-environment reader: what is set already stays ──

  predicate Settable(p: Pair) { p.key != "" && '\0' !in p.key && '\0' !in p.val }

  function SetUnlessSet(env: map<string, string>, p: Option<Pair>): map<string, string> {
    if p.Some? && p.value.key !in env && Settable(p.value) then env[p.value.key := p.value.val] else env
  }

  function FirstWins(ps: seq<Option<Pair>>, env: map<string, string>): map<string, string> {
    if ps == [] then env else SetUnlessSet(FirstWins(ps[..|ps| - 1], env), ps[|ps| - 1])
  }

  method Load(text: Option<string>, env: map<string, string>) returns (out: map<string, string>)
    ensures out == FirstWins(Parsed(Lines(text)), env)
  {
    hide ParseLine;
    out := env;
    var lines := Lines(text);
    ghost var ps := Parsed(lines);
    for i := 0 to |lines|
      invariant out == FirstWins(ps[..i], env)
    {
      assert ps[..i + 1][..i] == ps[..i];
      var p := ParseLine(lines[i]);
      if p.Some? && p.value.key !in out && Settable(p.value) {
        out := out[p.value.key := p.value.val];
      }
    }
    assert ps[..|lines|] == ps;
  }

  // ── the writer ──

  /** A line that assigns an updated key is replaced, any other is kept. */
  function Rewrite(line: string, p: Option<Pair>, updates: map<string, string>): string {
    if p.Some? && p.value.key in updates then Assignment(p.value.key, updates[p.value.key]) else line
  }

  function RewriteAll(lines: seq<string>, ps: seq<Option<Pair>>, updates: map<string, string>): (r: seq<string>)
    requires |lines| == |ps|
    ensures |r| == |lines|
    ensures forall i :: 0 <= i < |lines| ==> r[i] == Rewrite(lines[i], ps[i], updates)
  {
    seq(|lines|, i requires 0 <= i < |lines| => Rewrite(lines[i], ps[i], updates))
  }

  /** The updated keys that some line already assigns. */
  function Seen(ps: seq<Option<Pair>>, updates: map<string, string>): (r: set<string>)
    ensures r <= updates.Keys
  {
    if ps == [] then {}
    else
      var rest, p := Seen(ps[..|ps| - 1], updates), ps[|ps| - 1];
      if p.Some? && p.value.key in updates then rest + {p.value.key} else rest
  }

  lemma {:induction false} SeenMore(ps: seq<Option<Pair>>, i: nat, updates: map<string, string>)
    requires i < |ps|
    ensures Seen(ps[..i + 1], updates)
         == Seen(ps[..i], updates) + (if ps[i].Some? && ps[i].value.key in updates then {ps[i].value.key} else {})
  {
    assert ps[..i + 1][..i] == ps[..i];
  }

  function Appended(missing: seq<string>, updates: map<string, string>): (r: seq<string>)
    requires forall k :: k in missing ==> k in updates
    ensures |r| == |missing|
    ensures forall i :: 0 <= i < |missing| ==> r[i] == Assignment(missing[i], updates[missing[i]])
  {
    seq(|missing|, i requires 0 <= i < |missing| => Assignment(missing[i], updates[missing[i]]))
  }

  predicate EndsWithNewline(s: string) { s != "" && s[|s| - 1] == '\n' }

  function Render(lines: seq<string>): string {
    var content := Join(lines);
    if EndsWithNewline(content) then content else content + "\n"
  }

  predicate LexLe(a: string, b: string) {
    a == "" || (b != "" && (a[0] < b[0] || (a[0] == b[0] && LexLe(a[1..], b[1..]))))
  }

  ghost predicate InOrder(s: seq<string>) { forall i, j :: 0 <= i < j < |s| ==> LexLe(s[i], s[j]) }

  /** `missing` lists the updated keys that no line assigns, once each, in key order. */
  ghost predicate IsMissing(missing: seq<string>, ps: seq<Option<Pair>>, updates: map<string, string>) {
    && InOrder(missing)
    && (forall i, j :: 0 <= i < j < |missing| ==> missing[i] != missing[j])
    && (forall k :: k in missing <==> k in updates.Keys - Seen(ps, updates))
  }

  function NewLines(lines: seq<string>, missing: seq<string>, updates: map<string, string>): seq<string>
    requires forall k :: k in missing ==> k in updates
  {
    RewriteAll(lines, Parsed(lines), updates) + Appended(missing, updates)
  }

  lemma {:induction false} LexTotal(a: string, b: string)
    ensures LexLe(a, b) || LexLe(b, a)
  {
    if a != "" && b != "" && a[0] == b[0] {
      LexTotal(a[1..], b[1..]);
    }
  }

  lemma {:induction false} LexTrans(a: string, b: string, c: string)
    requires LexLe(a, b) && LexLe(b, c)
    ensures LexLe(a, c)
  {
    if a != "" && a[0] == b[0] && b[0] == c[0] {
      LexTrans(a[1..], b[1..], c[1..]);
    }
  }

  lemma {:induction false} AllFollow(s: seq<string>, i: nat, k: string)
    requires InOrder(s) && i <= |s| && (i < |s| ==> LexLe(k, s[i]))
    ensures forall j :: i <= j < |s| ==> LexLe(k, s[j])
  {
    hide LexLe;
    forall j | i < j < |s| ensures LexLe(k, s[j]) {
      LexTrans(k, s[i], s[j]);
    }
  }

  lemma {:induction false} InsertedInOrder(s: seq<string>, i: nat, k: string)
    requires InOrder(s) && i <= |s|
    requires (forall j :: 0 <= j < i ==> LexLe(s[j], k)) && (forall j :: i <= j < |s| ==> LexLe(k, s[j]))
    ensures InOrder(s[..i] + [k] + s[i..])
  {
    hide LexLe;
    var r := s[..i] + [k] + s[i..];
    forall p, q | 0 <= p < q < |r| ensures LexLe(r[p], r[q]) {
      assert p != i ==> r[p] == s[if p < i then p else p - 1];
      assert q != i ==> r[q] == s[if q < i then q else q - 1];
    }
  }

  /** Put `k` before the first element it does not follow. */
  method InsertInOrder(s: seq<string>, k: string) returns (r: seq<string>)
    requires InOrder(s)
    ensures InOrder(r) && |r| == |s| + 1 && multiset(r) == multiset(s) + multiset{k}
  {
    hide LexLe;
    var i := 0;
    while i < |s| && !LexLe(k, s[i])
      invariant 0 <= i <= |s|
      invariant forall j :: 0 <= j < i ==> LexLe(s[j], k)
    {
      LexTotal(k, s[i]);
      i := i + 1;
    }
    AllFollow(s, i, k);
    InsertedInOrder(s, i, k);
    r := s[..i] + [k] + s[i..];
    assert s == s[..i] + s[i..];
  }

  method SortStrings(s: seq<string>) returns (r: seq<string>)
    ensures InOrder(r) && multiset(r) == multiset(s)
  {
    r := [];
    for i := 0 to |s|
      invariant InOrder(r) && multiset(r) == multiset(s[..i])
    {
      assert s[..i + 1] == s[..i] + [s[i]];
      r := InsertInOrder(r, s[i]);
    }
    assert s[..|s|] == s;
  }

  lemma {:induction false} CountDistinct(s: seq<string>, x: string)
    requires forall i, j :: 0 <= i < j < |s| ==> s[i] != s[j]
    ensures multiset(s)[x] <= 1
  {
    if s != [] {
      var n := |s| - 1;
      assert s == s[..n] + [s[n]];
      CountDistinct(s[..n], x);
      assert s[n] !in s[..n];
      assert s[n] !in multiset(s[..n]);
    }
  }

  lemma {:induction false} SortedDistinct(r: seq<string>, s: seq<string>)
    requires multiset(r) == multiset(s) && forall i, j :: 0 <= i < j < |s| ==> s[i] != s[j]
    ensures forall i, j :: 0 <= i < j < |r| ==> r[i] != r[j]
    ensures forall k :: k in r <==> k in s
  {
    forall k ensures k in r <==> k in s {
      assert k in r <==> k in multiset(r);
      assert k in s <==> k in multiset(s);
    }
    forall i, j | 0 <= i < j < |r| ensures r[i] != r[j] {
      CountDistinct(s, r[i]);
      assert r == r[..j] + r[j..];
      assert multiset(r) == multiset(r[..j]) + multiset(r[j..]);
      assert r[..j][i] in multiset(r[..j]) && r[j..][0] in multiset(r[j..]);
    }
  }

  /** The updated keys without a line, in key order. */
  method CollectMissing(ghost ps: seq<Option<Pair>>, updates: map<string, string>, seen: set<string>)
    returns (missing: seq<string>)
    requires seen == Seen(ps, updates)
    ensures IsMissing(missing, ps, updates)
  {
    var keys, unsorted := updates.Keys, [];
    while keys != {}
      invariant keys <= updates.Keys
      invariant forall k :: k in unsorted <==> k in updates.Keys - keys && k !in seen
      invariant forall i, j :: 0 <= i < j < |unsorted| ==> unsorted[i] != unsorted[j]
      decreases keys
    {
      var k :| k in keys;
      keys := keys - {k};
      if k !in seen {
        unsorted := unsorted + [k];
      }
    }
    missing := SortStrings(unsorted);
    SortedDistinct(missing, unsorted);
  }

  /** One turn of the rewriting loop: the line to keep, and the updated key it assigns, if any. */
  method RewriteLine(
    raw: string, ghost before: seq<string>, ghost ps: seq<Option<Pair>>, ghost i: nat, updates: map<string, string>)
    returns (line: string, key: Option<string>)
    requires ps == Parsed(before) && i < |before| && raw == before[i]
    ensures line == Rewrite(raw, ps[i], updates)
    ensures key == if ps[i].Some? && ps[i].value.key in updates then Some(ps[i].value.key) else None
  {
    line, key := raw, None;
    var p := ParseLine(raw);
    if p.Some? && p.value.key in updates {
      line := Assignment(p.value.key, updates[p.value.key]);
      key := Some(p.value.key);
    }
  }

  /** Rewrite in place the lines that assign an updated key, and collect those keys. */
  method RewriteLines(before: seq<string>, ghost ps: seq<Option<Pair>>, updates: map<string, string>)
    returns (lines: seq<string>, seen: set<string>)
    requires ps == Parsed(before)
    ensures lines == RewriteAll(before, ps, updates) && seen == Seen(ps, updates)
  {
    lines, seen := before, {};
    ghost var after := RewriteAll(before, ps, updates);
    for i := 0 to |before|
      invariant |lines| == |before| && seen == Seen(ps[..i], updates)
      invariant forall k :: 0 <= k < i ==> lines[k] == after[k]
      invariant forall k :: i <= k < |before| ==> lines[k] == before[k]
    {
      SeenMore(ps, i, updates);
      var line, key := RewriteLine(lines[i], before, ps, i, updates);
      if key.Some? {
        seen := seen + {key.value};
      }
      lines := lines[i := line];
    }
    assert ps[..|before|] == ps;
  }

  method AppendMissing(before: seq<string>, missing: seq<string>, updates: map<string, string>)
    returns (lines: seq<string>)
    requires forall k :: k in missing ==> k in updates
    ensures lines == before + Appended(missing, updates)
  {
    lines := before;
    for i := 0 to |missing|
      invariant lines == before + Appended(missing, updates)[..i]
    {
      lines := lines + [Assignment(missing[i], updates[missing[i]])];
    }
  }

  method UpsertEnvFile(text: Option<string>, updates: map<string, string>) returns (content: string)
    ensures exists missing :: IsMissing(missing, Parsed(Lines(text)), updates)
                              && content == Render(NewLines(Lines(text), missing, updates))
  {
    var lines, seen := RewriteLines(Lines(text), Parsed(Lines(text)), updates);
    var missing := CollectMissing(Parsed(Lines(text)), updates, seen);
    lines := AppendMissing(lines, missing, updates);
    content := Join(lines);
    if !EndsWithNewline(content) {
      content := content + "\n";
    }
    assert content == Render(NewLines(Lines(text), missing, updates));
  }
}
