/** What a raw line of a .env file says: comments, `export`, quotes and blanks, by how the line is spelt. */
module EnvLines {
  import opened Basics
  import opened EnvText
  import opened EnvFiles
  import opened EnvRoundTrip

  ghost predicate Blanks(w: string) { forall i :: 0 <= i < |w| ==> IsSpace(w[i]) }

  /** The blanks: Unicode's white space, 25 characters. */
  lemma {:induction false} BlankCharacters(c: char)
    ensures IsSpace(c) <==> c in "\t\n\U{0B}\U{0C}\r \U{85}\U{A0}\U{1680}\U{2000}\U{2001}\U{2002}\U{2003}"
                                  + "\U{2004}\U{2005}\U{2006}\U{2007}\U{2008}\U{2009}\U{200A}"
                                  + "\U{2028}\U{2029}\U{202F}\U{205F}\U{3000}"
  {
  }

  /** Neither end is a blank; the empty string has none. */
  predicate Solid(s: string) { s != "" ==> !IsSpace(s[0]) && !IsSpace(s[|s| - 1]) }

  // ── trimming ──

  lemma {:induction false} TrimLeftOf(w: string, s: string)
    requires Blanks(w)
    ensures TrimLeft(w + s) == TrimLeft(s)
  {
    if w == "" {
      assert w + s == s;
    } else {
      assert (w + s)[1..] == w[1..] + s;
      TrimLeftOf(w[1..], s);
    }
  }

  lemma {:induction false} TrimRightOf(s: string, w: string)
    requires Blanks(w)
    ensures TrimRight(s + w) == TrimRight(s)
  {
    if w == "" {
      assert s + w == s;
    } else {
      var n := |w| - 1;
      assert (s + w)[..|s + w| - 1] == s + w[..n];
      TrimRightOf(s, w[..n]);
    }
  }

  lemma {:induction false} BlanksTrimAway(w: string)
    requires Blanks(w)
    ensures TrimLeft(w) == "" && Trim(w) == ""
  {
    TrimLeftOf(w, "");
    assert w + "" == w;
  }

  /** Trimming takes off exactly the blanks around a solid text. */
  lemma {:induction false} TrimTakesBlanks(w: string, s: string, v: string)
    requires Blanks(w) && Blanks(v) && Solid(s)
    ensures Trim(w + s + v) == s
  {
    assert w + s + v == w + (s + v);
    TrimLeftOf(w, s + v);
    if s == "" {
      assert s + v == v;
      BlanksTrimAway(v);
    } else {
      assert TrimLeft(s + v) == s + v;
      TrimRightOf(s, v);
      assert TrimRight(s) == s;
    }
  }

  lemma {:induction false} LeadingBlanks(s: string) returns (w: string)
    ensures Blanks(w) && s == w + TrimLeft(s)
  {
    hide IsSpace;
    if s != "" && IsSpace(s[0]) {
      var rest := LeadingBlanks(s[1..]);
      w := [s[0]] + rest;
      assert s == [s[0]] + s[1..];
    } else {
      w := "";
    }
  }

  lemma {:induction false} TrailingBlanks(s: string) returns (w: string)
    ensures Blanks(w) && s == TrimRight(s) + w
  {
    hide IsSpace;
    if s != "" && IsSpace(s[|s| - 1]) {
      var rest := TrailingBlanks(s[..|s| - 1]);
      w := rest + [s[|s| - 1]];
      assert s == s[..|s| - 1] + [s[|s| - 1]];
    } else {
      w := "";
    }
  }

  /** Every text is its trimmed form between blanks. */
  lemma {:induction false} TrimParts(s: string) returns (w: string, v: string)
    ensures Blanks(w) && Blanks(v) && Solid(Trim(s)) && s == w + Trim(s) + v
  {
    w := LeadingBlanks(s);
    v := TrailingBlanks(TrimLeft(s));
    TrimLeftIsSuffix(s);
    TrimRightIsPrefix(TrimLeft(s));
    assert s == w + (Trim(s) + v) == w + Trim(s) + v;
  }

  // ── lines that assign nothing ──

  lemma {:induction false} FirstStays(c: char, s: string)
    requires !IsSpace(c)
    ensures Trim([c] + s) != "" && Trim([c] + s)[0] == c
  {
    assert TrimLeft([c] + s) == [c] + s;
    TrimRightKeepsHead([c], s);
  }

  lemma {:induction false} LeadingIgnored(w: string, s: string)
    requires Blanks(w)
    ensures ParseLine(w + s) == ParseLine(s)
  {
    TrimLeftOf(w, s);
  }

  /** A blank line, and a line whose first character that is not blank is `#`, assign nothing. */
  lemma {:induction false} CommentAssignsNothing(w: string, s: string)
    requires Blanks(w)
    ensures ParseLine(w) == None && ParseLine(w + "#" + s) == None
  {
    BlanksTrimAway(w);
    assert w + "#" + s == w + ("#" + s);
    LeadingIgnored(w, "#" + s);
    FirstStays('#', s);
  }

  lemma {:induction false} NoIndex(s: string, c: char)
    ensures IndexOf(s, c) < 0 <==> c !in s
  {
    if s != "" && s[0] != c {
      NoIndex(s[1..], c);
      assert s == [s[0]] + s[1..];
    }
  }

  lemma {:induction false} TrimFromLine(s: string, c: char)
    requires c in Trim(s)
    ensures c in s
  {
    var w, v := TrimParts(s);
  }

  lemma {:induction false} SplitAtEquals(head: string, tail: string)
    requires '=' !in head
    ensures var body := head + "=" + tail;
      && IndexOf(body, '=') == |head| && body[..|head|] == head && body[|head| + 1..] == tail
  {
    IndexAfter(head, '=', tail);
  }

  /** What precedes `=` stays when the line is trimmed, and so does what follows but for its last blanks. */
  lemma {:induction false} TrimKeepsHead(head: string, v: string)
    requires head != "" && !IsSpace(head[0])
    ensures Trim(head + "=" + v) == head + "=" + TrimRight(v)
  {
    var h := head + "=";
    assert TrimLeft(h + v) == h + v;
    TrimRightKeepsHead(h, v);
  }

  lemma {:induction false} ExportInHead(head: string, tail: string)
    ensures EXPORT <= head + "=" + tail ==> EXPORT <= head
  {
    var line := head + "=" + tail;
    assert line[|head|] == '=';
    assert EXPORT <= line ==> |EXPORT| <= |head|;
    assert |EXPORT| <= |head| ==> line[..|EXPORT|] == head[..|EXPORT|];
  }

  lemma {:induction false} LineWithKey(head: string, v: string)
    requires head != "" && !IsSpace(head[0]) && head[0] != '#' && '=' !in head && !(EXPORT <= head)
    ensures ParseLine(head + "=" + v) == Some(Pair(Trim(head), Unquote(Trim(v))))
  {
    TrimKeepsHead(head, v);
    var line := head + "=" + TrimRight(v);
    ExportInHead(head, TrimRight(v));
    SplitAtEquals(head, TrimRight(v));
    TrimOfTrimRight(v);
  }

  lemma {:induction false} LineWithExport(head: string, v: string)
    requires '=' !in head
    ensures ParseLine(EXPORT + head + "=" + v)
      == if head == "" then None else Some(Pair(Trim(head), Unquote(Trim(v))))
  {
    TrimKeepsHead(EXPORT + head, v);
    var line := EXPORT + head + "=" + TrimRight(v);
    assert line[|EXPORT|..] == head + "=" + TrimRight(v);
    SplitAtEquals(head, TrimRight(v));
    TrimOfTrimRight(v);
  }

  lemma {:induction false} NoEquals(s: string)
    requires '=' !in s
    ensures ParseLine(s) == None
  {
    var line := Trim(s);
    assert '=' !in line by {
      if '=' in line {
        TrimFromLine(s, '=');
      }
    }
    NoIndex(line, '=');
    if EXPORT <= line {
      NoIndex(line[|EXPORT|..], '=');
    }
  }

  lemma {:induction false} NothingBeforeEquals(s: string)
    ensures ParseLine("=" + s) == None
  {
    FirstStays('=', s);
  }

  /** A line without `=`, or with nothing but blanks or `export ` before it, assigns nothing. */
  lemma {:induction false} KeylessAssignsNothing(w: string, s: string)
    ensures '=' !in s ==> ParseLine(s) == None
    ensures Blanks(w) ==> ParseLine(w + "=" + s) == None && ParseLine(w + "export =" + s) == None
  {
    hide ParseLine;
    if '=' !in s {
      NoEquals(s);
    }
    if Blanks(w) {
      assert w + "=" + s == w + ("=" + s);
      assert w + "export =" + s == w + (EXPORT + "" + "=" + s);
      LeadingIgnored(w, "=" + s);
      LeadingIgnored(w, EXPORT + "" + "=" + s);
      NothingBeforeEquals(s);
      LineWithExport("", s);
    }
  }

  // ── lines that assign ──

  /** A key that may stand in a line: no blank ends, no `=`. */
  predicate PlainKey(k: string) { k != "" && Solid(k) && '=' !in k }

  lemma {:induction false} KeyBetweenBlanks(z: string, k: string, u: string)
    requires Blanks(z) && Blanks(u) && PlainKey(k)
    ensures '=' !in z + k + u && Trim(z + k + u) == k
  {
    TrimTakesBlanks(z, k, u);
  }

  /**
   `KEY=value` assigns the trimmed and unquoted value to KEY, whatever blanks surround the key. A line
   beginning with `#` or `export ` is read otherwise.
   */
  lemma {:induction false} KeyAssigned(w: string, k: string, u: string, v: string)
    requires Blanks(w) && Blanks(u) && PlainKey(k) && k[0] != '#' && !(EXPORT <= k + u)
    ensures ParseLine(w + k + u + "=" + v) == Some(Pair(k, Unquote(Trim(v))))
  {
    hide ParseLine;
    assert w + k + u + "=" + v == w + (k + u + "=" + v);
    LeadingIgnored(w, k + u + "=" + v);
    KeyBetweenBlanks("", k, u);
    assert "" + k + u == k + u;
    LineWithKey(k + u, v);
  }

  /** `export KEY=value` is read as `KEY=value`. */
  lemma {:induction false} ExportIgnored(w: string, z: string, k: string, u: string, v: string)
    requires Blanks(w) && Blanks(z) && Blanks(u) && PlainKey(k)
    ensures ParseLine(w + "export " + z + k + u + "=" + v) == Some(Pair(k, Unquote(Trim(v))))
  {
    hide ParseLine;
    assert w + "export " + z + k + u + "=" + v == w + (EXPORT + (z + k + u) + "=" + v);
    LeadingIgnored(w, EXPORT + (z + k + u) + "=" + v);
    KeyBetweenBlanks(z, k, u);
    LineWithExport(z + k + u, v);
  }

  /** One pair of like quotes around the value goes, with the blanks around them; anything else stays. */
  lemma {:induction false} ValueSpelt(w: string, v: string, u: string)
    requires Blanks(w) && Blanks(u)
    ensures Unquote(Trim(w + "'" + v + "'" + u)) == v && Unquote(Trim(w + "\"" + v + "\"" + u)) == v
    ensures Solid(v) && !(|v| >= 2 && v[0] in {'"', '\''} && v[|v| - 1] == v[0]) ==> Unquote(Trim(w + v + u)) == v
  {
    var single, double := "'" + v + "'", "\"" + v + "\"";
    assert w + "'" + v + "'" + u == w + single + u;
    assert w + "\"" + v + "\"" + u == w + double + u;
    TrimTakesBlanks(w, single, u);
    TrimTakesBlanks(w, double, u);
    assert single[1..|single| - 1] == v && double[1..|double| - 1] == v;
    if Solid(v) {
      TrimTakesBlanks(w, v, u);
    }
  }

  // ── files ──

  ghost predicate AssignsAt(ps: seq<Option<Pair>>, k: string, i: int) {
    0 <= i < |ps| && ps[i].Some? && ps[i].value.key == k
  }

  /** The display reader: the value of the last line that assigns the key. */
  lemma {:induction false} LastLineCounts(ps: seq<Option<Pair>>, k: string)
    ensures k in LastWins(ps) <==> exists i :: AssignsAt(ps, k, i)
    ensures forall i :: AssignsAt(ps, k, i) && (forall j :: i < j < |ps| ==> !AssignsAt(ps, k, j))
                        ==> LastWins(ps)[k] == ps[i].value.val
  {
    if ps != [] {
      var n := |ps| - 1;
      LastLineCounts(ps[..n], k);
      forall i ensures AssignsAt(ps, k, i) <==> AssignsAt(ps[..n], k, i) || (i == n && AssignsAt(ps, k, n)) {
      }
      if AssignsAt(ps, k, n) {
        assert k in LastWins(ps);
      } else {
        assert k in LastWins(ps) <==> k in LastWins(ps[..n]);
      }
    }
  }

  /** ... and the process can hold it: a name, and no NUL in name or value. */
  ghost predicate SetsAt(ps: seq<Option<Pair>>, k: string, i: int) {
    AssignsAt(ps, k, i) && k != "" && '\0' !in k + ps[i].value.val
  }

  /** The process environment: what was set stays, else the first line that can be set counts. */
  lemma {:induction false} FirstLineCounts(ps: seq<Option<Pair>>, env: map<string, string>, k: string)
    ensures var out := FirstWins(ps, env);
      && (k in out <==> k in env || exists i :: SetsAt(ps, k, i))
      && (k in env ==> out[k] == env[k])
      && (k !in env ==> forall i :: SetsAt(ps, k, i) && (forall j :: 0 <= j < i ==> !SetsAt(ps, k, j))
                                    ==> out[k] == ps[i].value.val)
  {
    if ps != [] {
      var n := |ps| - 1;
      FirstLineCounts(ps[..n], env, k);
      forall i ensures SetsAt(ps, k, i) <==> SetsAt(ps[..n], k, i) || (i == n && SetsAt(ps, k, n)) {
      }
      if SetsAt(ps, k, n) {
        assert k in FirstWins(ps, env);
      }
    }
  }

  // ── saving ──

  /** A value is written bare, or in double quotes when a blank, a tab, `#` or a quote occurs in it. */
  lemma {:induction false} WrittenValue(key: string, v: string)
    ensures Assignment(key, v)
      == if exists i :: 0 <= i < |v| && v[i] in " \t#\"'" then key + "=\"" + v + "\"" else key + "=" + v
  {
    assert (exists i :: 0 <= i < |v| && v[i] in " \t#\"'") <==> NeedsQuotes(v) by {
      forall i | 0 <= i < |v| ensures v[i] in " \t#\"'" <==> QuoteTrigger(v[i]) {
      }
    }
    assert key + "=" + ("\"" + v + "\"") == key + "=\"" + v + "\"";
    assert v == "" ==> key + "=" + "" == key + "=" + v;
  }

  /** The order of appended keys: a prefix first, else by the first character that differs. */
  lemma {:induction false} KeyOrder(a: string, b: string)
    ensures LexLe(a, b) <==> a <= b || exists i :: 0 <= i < |a| && i < |b| && a[..i] == b[..i] && a[i] < b[i]
  {
    if a != "" && b != "" {
      KeyOrder(a[1..], b[1..]);
      if a[0] == b[0] {
        assert a <= b <==> a[1..] <= b[1..];
        if i :| 0 <= i < |a| && i < |b| && a[..i] == b[..i] && a[i] < b[i] {
          assert a[1..][..i - 1] == a[..i][1..] && b[1..][..i - 1] == b[..i][1..];
          assert a[1..][i - 1] < b[1..][i - 1];
        }
        if j :| 0 <= j < |a[1..]| && j < |b[1..]| && a[1..][..j] == b[1..][..j] && a[1..][j] < b[1..][j] {
          assert a[..j + 1] == [a[0]] + a[1..][..j] && b[..j + 1] == [b[0]] + b[1..][..j];
          assert a[j + 1] < b[j + 1];
        }
      } else if a[0] < b[0] {
        assert a[..0] == b[..0];
      }
    }
  }

  /** A saved file is the lines in place, with a line break at its end. */
  lemma {:induction false} SavedLines(text: Option<string>, missing: seq<string>, updates: map<string, string>, i: nat)
    requires ManagedKeys(updates) && NoNewlines(updates) && IsMissing(missing, Parsed(Lines(text)), updates)
    requires i < |Lines(text)|
    ensures var content := Render(NewLines(Lines(text), missing, updates));
      && EndsWithNewline(content) && i < |Split(content)|
      && Split(content)[i] == Rewrite(Lines(text)[i], ParseLine(Lines(text)[i]), updates)
  {
    hide ParseLine;
    var lines := NewLines(Lines(text), missing, updates);
    NewLinesOneLiners(Lines(text), missing, updates);
    SplitRender(lines);
    assert lines[i] == RewriteAll(Lines(text), Parsed(Lines(text)), updates)[i];
  }

  /** A comment stays where it was, whatever it comments out. */
  lemma {:induction false} CommentsSurvive(
    text: Option<string>, missing: seq<string>, updates: map<string, string>, i: nat, w: string, s: string)
    requires ManagedKeys(updates) && NoNewlines(updates) && IsMissing(missing, Parsed(Lines(text)), updates)
    requires i < |Lines(text)| && Blanks(w) && Lines(text)[i] == w + "#" + s
    ensures var after := Split(Render(NewLines(Lines(text), missing, updates)));
      i < |after| && after[i] == w + "#" + s
  {
    hide ParseLine;
    SavedLines(text, missing, updates, i);
    CommentAssignsNothing(w, s);
  }
}
