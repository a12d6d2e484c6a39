/** What saving settings does to the file, as both readers see it. */
module EnvRoundTrip {
  import opened Basics
  import opened EnvText
  import opened EnvFiles

  predicate ManagedKeys(updates: map<string, string>) {
    forall k :: k in updates ==> ManagedShape(k)
  }

  predicate NoNewlines(updates: map<string, string>) {
    forall k :: k in updates ==> !HasNewline(updates[k])
  }

  /** What comes back of a value that was written and read. */
  function Back(v: string): string { Unquote(Trim(QuoteEnvValue(v))) }

  function BackAll(updates: map<string, string>): map<string, string> {
    map k | k in updates :: Back(updates[k])
  }

  function Restrict(m: map<string, string>, keys: set<string>): map<string, string> {
    map k | k in keys && k in m :: m[k]
  }

  // ── the lines of a saved file, as what they assign ──

  function RewritePair(p: Option<Pair>, backs: map<string, string>): Option<Pair> {
    if p.Some? && p.value.key in backs then Some(Pair(p.value.key, backs[p.value.key])) else p
  }

  /** What the rewritten and the appended lines assign, when the updates read back as `backs`. */
  function NewPairs(ps: seq<Option<Pair>>, missing: seq<string>, backs: map<string, string>): (r: seq<Option<Pair>>)
    requires forall k :: k in missing ==> k in backs
    ensures |r| == |ps| + |missing|
    ensures forall i :: 0 <= i < |ps| ==> r[i] == RewritePair(ps[i], backs)
    ensures forall i :: 0 <= i < |missing| ==> r[|ps| + i] == Some(Pair(missing[i], backs[missing[i]]))
  {
    seq(|ps|, i requires 0 <= i < |ps| => RewritePair(ps[i], backs))
    + seq(|missing|, i requires 0 <= i < |missing| => Some(Pair(missing[i], backs[missing[i]])))
  }

  lemma {:induction false} RewriteReads(line: string, p: Option<Pair>, updates: map<string, string>)
    requires ManagedKeys(updates) && p == ParseLine(line)
    ensures ParseLine(Rewrite(line, p, updates)) == RewritePair(p, BackAll(updates))
  {
    if p.Some? && p.value.key in updates {
      AssignmentReadsBack(p.value.key, updates[p.value.key]);
    }
  }

  lemma {:induction false} NewLinesRead(lines: seq<string>, missing: seq<string>, updates: map<string, string>)
    requires ManagedKeys(updates) && forall k :: k in missing ==> k in updates
    ensures Parsed(NewLines(lines, missing, updates)) == NewPairs(Parsed(lines), missing, BackAll(updates))
  {
    var r, ps := NewLines(lines, missing, updates), Parsed(lines);
    var q := NewPairs(ps, missing, BackAll(updates));
    forall i | 0 <= i < |r| ensures Parsed(r)[i] == q[i] {
      if i < |lines| {
        RewriteReads(lines[i], ps[i], updates);
      } else {
        assert missing[i - |lines|] in missing;
        AssignmentReadsBack(missing[i - |lines|], updates[missing[i - |lines|]]);
        assert q[|ps| + (i - |lines|)] == q[i];
      }
    }
  }

  // ── from text to lines and back ──

  lemma {:induction false} AssignmentOneLine(key: string, v: string)
    requires ManagedShape(key) && !HasNewline(v)
    ensures !HasNewline(Assignment(key, v))
  {
  }

  lemma {:induction false} NewLinesOneLiners(lines: seq<string>, missing: seq<string>, updates: map<string, string>)
    requires OneLiners(lines) && ManagedKeys(updates) && NoNewlines(updates)
    requires forall k :: k in missing ==> k in updates
    ensures OneLiners(NewLines(lines, missing, updates))
  {
    var r, ps := NewLines(lines, missing, updates), Parsed(lines);
    forall i | 0 <= i < |r| ensures !HasNewline(r[i]) {
      if i < |lines| {
        if ps[i].Some? && ps[i].value.key in updates {
          AssignmentOneLine(ps[i].value.key, updates[ps[i].value.key]);
        }
      } else {
        assert missing[i - |lines|] in missing;
        AssignmentOneLine(missing[i - |lines|], updates[missing[i - |lines|]]);
      }
    }
  }

  /** The text of a file splits into its lines, followed by a blank one where the last newline was added. */
  lemma {:induction false} SplitRender(lines: seq<string>)
    requires OneLiners(lines)
    ensures var r := Split(Render(lines));
      r == lines || r == lines + [""] || (lines == [] && r == ["", ""])
  {
    if lines == [] {
      assert Split("\n")[1..] == Split("") by {
        assert "\n"[1..] == "";
      }
    } else {
      SplitJoin(lines);
      if !EndsWithNewline(Join(lines)) {
        JoinSnoc(lines, "");
        SplitJoin(lines + [""]);
        assert Render(lines) == Join(lines + [""]);
      }
    }
  }

  lemma {:induction false} BlankParses()
    ensures ParseLine("").None?
  {
  }

  /** Reading a rendered file: what its lines assign, and a blank or two. */
  lemma {:induction false} ParsedRender(lines: seq<string>)
    requires OneLiners(lines)
    ensures var r, ps := Parsed(Split(Render(lines))), Parsed(lines);
      r == ps || r == ps + [None] || (ps == [] && r == [None, None])
  {
    SplitRender(lines);
    BlankParses();
  }

  lemma {:induction false} BlanksDoNotCount(ps: seq<Option<Pair>>, env: map<string, string>)
    ensures LastWins(ps + [None]) == LastWins(ps) && FirstWins(ps + [None], env) == FirstWins(ps, env)
  {
    assert (ps + [None])[..|ps|] == ps;
  }

  lemma {:induction false} RenderReads(lines: seq<string>)
    requires OneLiners(lines)
    ensures LastWins(Parsed(Split(Render(lines)))) == LastWins(Parsed(lines))
    ensures FirstWins(Parsed(Split(Render(lines))), map[]) == FirstWins(Parsed(lines), map[])
  {
    ParsedRender(lines);
    BlanksDoNotCount(Parsed(lines), map[]);
    BlanksDoNotCount([], map[]);
    BlanksDoNotCount([None], map[]);
    var one: seq<Option<Pair>> := [None];
    assert [] + one == one && one + one == [None, None];
  }

  // ── the display reader ──

  lemma {:induction false} RestrictMore(backs: map<string, string>, keys: set<string>, k: string)
    requires k in backs
    ensures Restrict(backs, keys + {k}) == Restrict(backs, keys)[k := backs[k]]
  {
  }

  lemma {:induction false} LastOfRewritten(ps: seq<Option<Pair>>, backs: map<string, string>)
    ensures LastWins(NewPairs(ps, [], backs)) == LastWins(ps) + Restrict(backs, Seen(ps, backs))
  {
    if ps == [] {
      assert Restrict(backs, {}) == map[];
    } else {
      var n := |ps| - 1;
      LastOfRewritten(ps[..n], backs);
      assert NewPairs(ps, [], backs)[..n] == NewPairs(ps[..n], [], backs);
      if ps[n].Some? && ps[n].value.key in backs {
        RestrictMore(backs, Seen(ps[..n], backs), ps[n].value.key);
      } else if ps[n].Some? {
        assert ps[n].value.key !in Restrict(backs, Seen(ps[..n], backs));
      }
    }
  }

  function Listed(keys: seq<string>): set<string> { set k | k in keys }

  lemma {:induction false} ListedMore(keys: seq<string>, k: string)
    ensures Listed(keys + [k]) == Listed(keys) + {k}
  {
  }

  lemma {:induction false} OverrideThenSet(a: map<string, string>, b: map<string, string>, k: string, v: string)
    ensures (a + b)[k := v] == a + b[k := v]
  {
  }

  lemma {:induction false} NewPairsMore(ps: seq<Option<Pair>>, rest: seq<string>, k: string, backs: map<string, string>)
    requires (forall x :: x in rest ==> x in backs) && k in backs
    ensures NewPairs(ps, rest + [k], backs) == NewPairs(ps, rest, backs) + [Some(Pair(k, backs[k]))]
    ensures LastWins(NewPairs(ps, rest + [k], backs)) == LastWins(NewPairs(ps, rest, backs))[k := backs[k]]
  {
    var a, b := NewPairs(ps, rest + [k], backs), NewPairs(ps, rest, backs);
    forall i | 0 <= i < |a| ensures a[i] == (b + [Some(Pair(k, backs[k]))])[i] {
      if i >= |ps| {
        assert a[|ps| + (i - |ps|)] == a[i];
        if i < |b| {
          assert b[|ps| + (i - |ps|)] == b[i];
        }
      }
    }
    assert a[..|b|] == b;
  }

  lemma {:induction false} LastOfNew(ps: seq<Option<Pair>>, missing: seq<string>, backs: map<string, string>)
    requires forall k :: k in missing ==> k in backs
    ensures LastWins(NewPairs(ps, missing, backs)) == LastWins(ps) + Restrict(backs, Seen(ps, backs) + Listed(missing))
  {
    var seen := Seen(ps, backs);
    if missing == [] {
      LastOfRewritten(ps, backs);
      assert seen + Listed(missing) == seen;
    } else {
      var n := |missing| - 1;
      var k, rest := missing[n], missing[..n];
      LastOfNew(ps, rest, backs);
      assert missing == rest + [k] && k in missing;
      NewPairsMore(ps, rest, k, backs);
      RestrictMore(backs, seen + Listed(rest), k);
      ListedMore(rest, k);
      assert seen + Listed(missing) == seen + Listed(rest) + {k};
      OverrideThenSet(LastWins(ps), Restrict(backs, seen + Listed(rest)), k, backs[k]);
    }
  }

  lemma {:induction false} SeenByKeys(ps: seq<Option<Pair>>, a: map<string, string>, b: map<string, string>)
    requires a.Keys == b.Keys
    ensures Seen(ps, a) == Seen(ps, b)
  {
    if ps != [] {
      SeenByKeys(ps[..|ps| - 1], a, b);
    }
  }

  lemma {:induction false} LastOfAll(ps: seq<Option<Pair>>, missing: seq<string>, backs: map<string, string>)
    requires forall k :: k in missing <==> k in backs.Keys - Seen(ps, backs)
    ensures LastWins(NewPairs(ps, missing, backs)) == LastWins(ps) + backs
  {
    LastOfNew(ps, missing, backs);
    assert Seen(ps, backs) + Listed(missing) == backs.Keys;
    assert Restrict(backs, backs.Keys) == backs;
  }

  lemma {:induction false} LastOfSaved(lines: seq<string>, missing: seq<string>, updates: map<string, string>)
    requires ManagedKeys(updates) && IsMissing(missing, Parsed(lines), updates)
    ensures LastWins(Parsed(NewLines(lines, missing, updates))) == LastWins(Parsed(lines)) + BackAll(updates)
  {
    NewLinesRead(lines, missing, updates);
    SeenByKeys(Parsed(lines), updates, BackAll(updates));
    LastOfAll(Parsed(lines), missing, BackAll(updates));
  }

  lemma {:induction false} ValuesComeFromLines(ps: seq<Option<Pair>>, k: string)
    requires k in LastWins(ps)
    ensures exists i :: 0 <= i < |ps| && ps[i] == Some(Pair(k, LastWins(ps)[k]))
  {
    var n := |ps| - 1;
    if ps[n].Some? && ps[n].value.key == k {
      assert ps[n] == Some(Pair(k, LastWins(ps)[k]));
    } else {
      ValuesComeFromLines(ps[..n], k);
      var i :| 0 <= i < n && ps[..n][i] == Some(Pair(k, LastWins(ps[..n])[k]));
      assert ps[i] == Some(Pair(k, LastWins(ps)[k]));
    }
  }

  lemma {:induction false} TrimInside(s: string)
    requires !HasNewline(s)
    ensures !HasNewline(Trim(s))
  {
    var l := TrimLeft(s);
    TrimLeftIsSuffix(s);
    TrimRightIsPrefix(l);
    assert !HasNewline(l);
    assert Trim(s) == l[..|Trim(s)|];
  }

  lemma {:induction false} ValueInside(line: string)
    requires !HasNewline(line) && ParseLine(line).Some?
    ensures !HasNewline(ParseLine(line).value.val)
  {
    TrimInside(line);
    var t := Trim(line);
    var body := if EXPORT <= t then t[|EXPORT|..] else t;
    TrimInside(body[IndexOf(body, '=') + 1..]);
  }

  /** A value with a line break in it never comes back. */
  lemma {:induction false} NoValueWithNewline(lines: seq<string>, k: string)
    requires OneLiners(lines) && k in LastWins(Parsed(lines))
    ensures !HasNewline(LastWins(Parsed(lines))[k])
  {
    var ps := Parsed(lines);
    ValuesComeFromLines(ps, k);
    var i :| 0 <= i < |ps| && ps[i] == Some(Pair(k, LastWins(ps)[k]));
    ValueInside(lines[i]);
  }

  predicate AllRepresentable(updates: map<string, string>) {
    forall k :: k in updates ==> Representable(updates[k])
  }

  lemma {:induction false} BackIsSame(updates: map<string, string>)
    ensures BackAll(updates) == updates <==> AllRepresentable(updates)
  {
    hide Representable;
    forall k | k in updates ensures BackAll(updates)[k] == updates[k] <==> Representable(updates[k]) {
      ValueSurvives(updates[k]);
      hide Back;
    }
    hide Back;
  }

  lemma {:induction false} OverrideSame(m: map<string, string>, a: map<string, string>, b: map<string, string>)
    requires a.Keys == b.Keys
    ensures m + a == m + b <==> a == b
  {
    if m + a == m + b {
      forall k | k in a ensures a[k] == b[k] {
        assert (m + a)[k] == a[k] && (m + b)[k] == b[k];
      }
    }
  }

  lemma {:induction false} SavedReads(text: Option<string>, missing: seq<string>, updates: map<string, string>)
    requires ManagedKeys(updates) && NoNewlines(updates) && IsMissing(missing, Parsed(Lines(text)), updates)
    ensures LastWins(Parsed(Split(Render(NewLines(Lines(text), missing, updates)))))
            == LastWins(Parsed(Lines(text))) + BackAll(updates)
  {
    NewLinesOneLiners(Lines(text), missing, updates);
    RenderReads(NewLines(Lines(text), missing, updates));
    LastOfSaved(Lines(text), missing, updates);
  }

  /**
   After a save, the file reads as the old settings overridden by the new ones exactly when every new
   value has no line break and either needs quotes or carries no outer white space.
   */
  lemma {:induction false} SaveThenParse(text: Option<string>, missing: seq<string>, updates: map<string, string>)
    requires ManagedKeys(updates) && IsMissing(missing, Parsed(Lines(text)), updates)
    ensures LastWins(Parsed(Split(Render(NewLines(Lines(text), missing, updates)))))
            == LastWins(Parsed(Lines(text))) + updates
            <==> NoNewlines(updates) && AllRepresentable(updates)
  {
    var lines, before := Lines(text), LastWins(Parsed(Lines(text)));
    var saved := Split(Render(NewLines(lines, missing, updates)));
    if NoNewlines(updates) {
      SavedReads(text, missing, updates);
      OverrideSame(before, BackAll(updates), updates);
      BackIsSame(updates);
    } else if LastWins(Parsed(saved)) == before + updates {
      var k :| k in updates && HasNewline(updates[k]);
      NoValueWithNewline(saved, k);
    }
  }

  // ── what the Settings page can send ──

  lemma {:induction false} TrimTwice(s: string)
    ensures Trim(Trim(s)) == Trim(s)
  {
    var l := TrimLeft(s);
    var r := TrimRight(l);
    TrimLeftIsSuffix(s);
    TrimRightIsPrefix(l);
    if r != "" {
      assert r[0] == l[0];
    }
  }

  /**
   The updates that a posted form makes: managed keys only, every value trimmed, and a blank secret left
   out, which keeps the stored one.
   */
  function Posted(values: map<string, string>, managed: set<string>, secret: set<string>): map<string, string> {
    map k | k in values && k in managed && (Trim(values[k]) != "" || k !in secret) :: Trim(values[k])
  }

  lemma {:induction false} PostedIsRepresentable(values: map<string, string>, managed: set<string>, secret: set<string>)
    ensures AllRepresentable(Posted(values, managed, secret))
  {
    forall k | k in Posted(values, managed, secret) ensures Representable(Posted(values, managed, secret)[k]) {
      TrimTwice(values[k]);
    }
  }

  /**
   What is posted from the Settings page and saved reads back, over the old settings, exactly when no
   value has a line break in it.
   */
  lemma {:induction false} SettingsReadBack(
    text: Option<string>, missing: seq<string>, values: map<string, string>, managed: set<string>, secret: set<string>)
    requires ManagedKeys(Posted(values, managed, secret))
    requires IsMissing(missing, Parsed(Lines(text)), Posted(values, managed, secret))
    ensures var updates := Posted(values, managed, secret);
      LastWins(Parsed(Split(Render(NewLines(Lines(text), missing, updates)))))
      == LastWins(Parsed(Lines(text))) + updates
      <==> NoNewlines(updates)
  {
    PostedIsRepresentable(values, managed, secret);
    hide *;
    SaveThenParse(text, missing, Posted(values, managed, secret));
  }

  /**
   Key by key: a managed key that was posted reads as typed, trimmed; a blank secret, a key that is not
   managed and one not posted read as before.
   */
  lemma {:induction false} SettingsTake(
    text: Option<string>, missing: seq<string>, values: map<string, string>, managed: set<string>, secret: set<string>,
    k: string)
    requires var updates := Posted(values, managed, secret);
      ManagedKeys(updates) && NoNewlines(updates) && IsMissing(missing, Parsed(Lines(text)), updates)
    ensures var before := LastWins(Parsed(Lines(text)));
      var after := LastWins(Parsed(Split(Render(NewLines(Lines(text), missing, Posted(values, managed, secret))))));
      if k !in values || k !in managed || (k in secret && Trim(values[k]) == "") then
        (k in after <==> k in before) && (k in after ==> after[k] == before[k])
      else k in after && after[k] == Trim(values[k])
  {
    hide LastWins;
    hide Parsed;
    hide Split;
    hide Render;
    hide NewLines;
    hide Lines;
    hide Trim;
    hide IsMissing;
    hide ManagedKeys;
    hide NoNewlines;
    SettingsReadBack(text, missing, values, managed, secret);
  }

  lemma {:induction false} PostedAsTyped(key: string, v: string)
    requires v != "" && !IsSpace(v[0]) && !IsSpace(v[|v| - 1])
    ensures Posted(map[key := v], {key}, {}) == map[key := v]
  {
    assert TrimLeft(v) == v && TrimRight(v) == v;
  }

  lemma {:induction false} OneNewKey(key: string, v: string)
    ensures IsMissing([key], Parsed(Lines(None)), map[key := v]) && LastWins(Parsed(Lines(None))) == map[]
  {
    hide ParseLine;
    assert Parsed(Lines(None)) == [];
  }

  lemma {:induction false} PlainLine(key: string, v: string)
    requires ManagedShape(key) && !NeedsQuotes(v) && v != ""
    ensures NewLines(Lines(None), [key], map[key := v]) == [key + "=" + v]
  {
    hide ParseLine;
    assert Parsed(Lines(None)) == [];
  }

  lemma {:induction false} BrokenFile(key: string)
    requires ManagedShape(key)
    ensures Split(Render([key + "=a\nb"])) == [key + "=a", "b", ""]
  {
    var content, lines := key + "=a\nb", [key + "=a", "b", ""];
    assert Join([content]) == content && content[|content| - 1] == 'b';
    assert lines[1..] == ["b", ""] && ["b", ""][1..] == [""];
    assert Join(["b", ""]) == "b\n" + "";
    assert Render([content]) == Join(lines) by {
      assert Join(lines) == key + "=a" + "\n" + ("b\n" + "");
      assert content + "\n" == key + "=a" + "\n" + ("b\n" + "");
    }
    assert forall i :: 0 <= i < |key| ==> key[i] != '\n';
    SplitJoin(lines);
  }

  lemma {:induction false} NoAssignment()
    ensures Unquote(Trim("a")) == "a" && ParseLine("b") == None
  {
    assert TrimLeft("a") == "a" && TrimRight("a") == "a" && TrimLeft("b") == "b" && TrimRight("b") == "b";
    assert IndexOf("b", '=') == -1;
  }

  lemma {:induction false} BrokenLinesParse(key: string)
    requires ManagedShape(key)
    ensures Parsed([key + "=a", "b", ""]) == [Some(Pair(key, "a")), None, None]
  {
    hide ParseLine;
    hide ManagedShape;
    hide Unquote;
    hide Trim;
    ReadBack(key, "a");
    NoAssignment();
    BlankParses();
    assert key + "=" + "a" == key + "=a";
  }

  lemma {:induction false} LastOfOne(p: Pair)
    ensures LastWins([Some(p), None, None]) == map[p.key := p.val]
  {
    var one: seq<Option<Pair>> := [Some(p)];
    BlanksDoNotCount(one, map[]);
    BlanksDoNotCount(one + [None], map[]);
    assert one + [None] + [None] == [Some(p), None, None];
    assert one[..0] == [] && LastWins([]) == map[];
  }

  lemma {:induction false} BrokenLinesRead(key: string)
    requires ManagedShape(key)
    ensures LastWins(Parsed([key + "=a", "b", ""])) == map[key := "a"]
  {
    hide *;
    BrokenLinesParse(key);
    LastOfOne(Pair(key, "a"));
  }

  const STATION_NAME := "STATION_NAME"

  /** A value with a line break in it is cut there: what follows becomes a line of its own. */
  lemma {:induction false} BreakIsLost()
    ensures var key := STATION_NAME;
      var updates := Posted(map[key := "a\nb"], {key}, {});
      && updates == map[key := "a\nb"] && IsMissing([key], Parsed(Lines(None)), updates)
      && LastWins(Parsed(Split(Render(NewLines(Lines(None), [key], updates))))) == map[key := "a"]
  {
    var key, v := STATION_NAME, "a\nb";
    assert ManagedShape(key);
    PostedAsTyped(key, v);
    assert !NeedsQuotes(v) && key + "=" + v == key + "=a\nb";
    hide *;
    OneNewKey(key, v);
    PlainLine(key, v);
    BrokenFile(key);
    BrokenLinesRead(key);
  }

  // ── of the writer alone ──

  lemma {:induction false} BackOfSpaced(v: string)
    requires v == "\U{A0}x"
    ensures Back(v) == "x"
  {
    assert v[1..] == "x" && TrimLeft("x") == "x" && TrimRight("x") == "x";
  }

  /** Outer white space that asks for no quotes would be lost: here a no-break space before a letter. */
  lemma {:induction false} OuterSpaceIsLost()
    ensures var updates, missing := map["STATION_NAME" := "\U{A0}x"], ["STATION_NAME"];
      && ManagedKeys(updates) && IsMissing(missing, Parsed(Lines(None)), updates)
      && LastWins(Parsed(Split(Render(NewLines(Lines(None), missing, updates))))) == map["STATION_NAME" := "x"]
  {
    var v := "\U{A0}x";
    var updates := map["STATION_NAME" := v];
    assert ManagedKeys(updates) && NoNewlines(updates);
    OneNewKey("STATION_NAME", v);
    BackOfSpaced(v);
    hide Back;
    assert BackAll(updates) == map["STATION_NAME" := "x"];
    hide *;
    SavedReads(None, ["STATION_NAME"], updates);
  }

  // ── lines the save has no business with ──

  function UnrelatedLines(lines: seq<string>, ps: seq<Option<Pair>>, keys: set<string>): seq<string>
    requires |lines| == |ps|
  {
    if lines == [] then []
    else
      var n := |lines| - 1;
      var rest := UnrelatedLines(lines[..n], ps[..n], keys);
      if ps[n].Some? && ps[n].value.key in keys then rest else rest + [lines[n]]
  }

  /** The lines that assign no key of `keys`, in order: comments, blanks, other settings. */
  function Others(lines: seq<string>, keys: set<string>): seq<string> {
    UnrelatedLines(lines, Parsed(lines), keys)
  }

  /** Replacing lines by lines that assign the same keys, and only where a key is updated. */
  lemma {:induction false} SameOthers(
    lines: seq<string>, ps: seq<Option<Pair>>, lines': seq<string>, ps': seq<Option<Pair>>, keys: set<string>)
    requires |lines| == |ps| == |lines'| == |ps'|
    requires forall i :: 0 <= i < |ps| ==>
      if ps[i].Some? && ps[i].value.key in keys then ps'[i].Some? && ps'[i].value.key in keys
      else ps'[i] == ps[i] && lines'[i] == lines[i]
    ensures UnrelatedLines(lines', ps', keys) == UnrelatedLines(lines, ps, keys)
  {
    if lines != [] {
      var n := |lines| - 1;
      SameOthers(lines[..n], ps[..n], lines'[..n], ps'[..n], keys);
    }
  }

  lemma {:induction false} RelatedTail(
    lines: seq<string>, ps: seq<Option<Pair>>, more: seq<string>, qs: seq<Option<Pair>>, keys: set<string>)
    requires |lines| == |ps| && |more| == |qs|
    requires forall i :: 0 <= i < |qs| ==> qs[i].Some? && qs[i].value.key in keys
    ensures UnrelatedLines(lines + more, ps + qs, keys) == UnrelatedLines(lines, ps, keys)
  {
    if more == [] {
      assert lines + more == lines && ps + qs == ps;
    } else {
      var n := |more| - 1;
      RelatedTail(lines, ps, more[..n], qs[..n], keys);
      assert (lines + more)[..|lines| + n] == lines + more[..n] && (ps + qs)[..|ps| + n] == ps + qs[..n];
    }
  }

  lemma {:induction false} OthersOfPairs(
    lines: seq<string>, ps: seq<Option<Pair>>, missing: seq<string>, updates: map<string, string>,
    backs: map<string, string>)
    requires |lines| == |ps| && backs.Keys == updates.Keys && forall k :: k in missing ==> k in updates
    ensures UnrelatedLines(
              RewriteAll(lines, ps, updates) + Appended(missing, updates), NewPairs(ps, missing, backs), updates.Keys)
         == UnrelatedLines(lines, ps, updates.Keys)
  {
    var rewritten, more := RewriteAll(lines, ps, updates), Appended(missing, updates);
    var q := NewPairs(ps, missing, backs);
    var head, tail := q[..|ps|], q[|ps|..];
    assert q == head + tail;
    SameOthers(lines, ps, rewritten, head, updates.Keys);
    forall i | 0 <= i < |missing| ensures tail[i].Some? && tail[i].value.key in updates.Keys {
      assert missing[i] in missing && tail[i] == q[|ps| + i];
    }
    RelatedTail(rewritten, head, more, tail, updates.Keys);
  }

  lemma {:induction false} OthersOfNew(lines: seq<string>, missing: seq<string>, updates: map<string, string>)
    requires ManagedKeys(updates) && forall k :: k in missing ==> k in updates
    ensures Others(NewLines(lines, missing, updates), updates.Keys) == Others(lines, updates.Keys)
  {
    NewLinesRead(lines, missing, updates);
    OthersOfPairs(lines, Parsed(lines), missing, updates, BackAll(updates));
  }

  lemma {:induction false} BlankLast(lines: seq<string>, ps: seq<Option<Pair>>, keys: set<string>)
    requires |lines| == |ps|
    ensures UnrelatedLines(lines + [""], ps + [None], keys) == UnrelatedLines(lines, ps, keys) + [""]
  {
    assert (lines + [""])[..|lines|] == lines && (ps + [None])[..|ps|] == ps;
  }

  lemma {:induction false} ParsedBlank(lines: seq<string>)
    ensures Parsed(lines + [""]) == Parsed(lines) + [None]
  {
    BlankParses();
    hide ParseLine;
  }

  lemma {:induction false} BlankIsOther(lines: seq<string>, keys: set<string>)
    ensures Others(lines + [""], keys) == Others(lines, keys) + [""]
  {
    ParsedBlank(lines);
    hide Parsed;
    hide UnrelatedLines;
    BlankLast(lines, Parsed(lines), keys);
  }

  lemma {:induction false} OnlyBlanks(keys: set<string>)
    ensures Others([], keys) == [] && Others(["", ""], keys) == ["", ""]
  {
    BlankIsOther([], keys);
    BlankIsOther([""], keys);
    assert [] + [""] == [""] && [""] + [""] == ["", ""];
  }

  /** `after` is `before`, with at most blank lines added at the end. */
  predicate OnlyBlanksAdded(before: seq<string>, after: seq<string>) {
    after == before || after == before + [""] || (before == [] && after == ["", ""])
  }

  lemma {:induction false} RenderKeepsOthers(lines: seq<string>, keys: set<string>)
    requires OneLiners(lines)
    ensures OnlyBlanksAdded(Others(lines, keys), Others(Split(Render(lines)), keys))
  {
    SplitRender(lines);
    OnlyBlanks(keys);
    hide Others;
    BlankIsOther(lines, keys);
  }

  /** Comments, blank lines and other keys survive a save, in order; at most blank lines join the end. */
  lemma {:induction false} SaveKeepsOthers(text: Option<string>, missing: seq<string>, updates: map<string, string>)
    requires ManagedKeys(updates) && NoNewlines(updates) && IsMissing(missing, Parsed(Lines(text)), updates)
    ensures var after := Split(Render(NewLines(Lines(text), missing, updates)));
      OnlyBlanksAdded(Others(Lines(text), updates.Keys), Others(after, updates.Keys))
  {
    NewLinesOneLiners(Lines(text), missing, updates);
    OthersOfNew(Lines(text), missing, updates);
    RenderKeepsOthers(NewLines(Lines(text), missing, updates), updates.Keys);
  }

  // ── the process-environment reader ──

  /** Some line assigns `k`, and every line that does assigns it `x`. */
  ghost predicate Agrees(ps: seq<Option<Pair>>, k: string, x: string) {
    forall i :: 0 <= i < |ps| && ps[i].Some? && ps[i].value.key == k ==> ps[i].value.val == x
  }

  ghost predicate Assigns(ps: seq<Option<Pair>>, k: string) {
    exists i :: 0 <= i < |ps| && ps[i].Some? && ps[i].value.key == k
  }

  lemma {:induction false} FirstOfAgreeing(ps: seq<Option<Pair>>, k: string, x: string)
    requires Agrees(ps, k, x)
    ensures var env := FirstWins(ps, map[]);
      (k in env <==> Assigns(ps, k) && Settable(Pair(k, x))) && (k in env ==> env[k] == x)
  {
    if ps != [] {
      var n := |ps| - 1;
      FirstOfAgreeing(ps[..n], k, x);
      assert Assigns(ps, k) <==> Assigns(ps[..n], k) || (ps[n].Some? && ps[n].value.key == k) by {
        if i :| 0 <= i < n && ps[..n][i].Some? && ps[..n][i].value.key == k {
          assert ps[i].value.key == k;
        }
        if i :| 0 <= i < |ps| && ps[i].Some? && ps[i].value.key == k && i < n {
          assert ps[..n][i].value.key == k;
        }
      }
    }
  }

  lemma {:induction false} SeenIsAssigned(ps: seq<Option<Pair>>, updates: map<string, string>, k: string)
    requires k in Seen(ps, updates)
    ensures Assigns(ps, k)
  {
    var n := |ps| - 1;
    if ps[n].Some? && ps[n].value.key == k {
    } else {
      SeenIsAssigned(ps[..n], updates, k);
      var i :| 0 <= i < n && ps[..n][i].Some? && ps[..n][i].value.key == k;
      assert ps[i].value.key == k;
    }
  }

  lemma {:induction false} NewPairsAgree(
    ps: seq<Option<Pair>>, missing: seq<string>, backs: map<string, string>, k: string)
    requires forall x :: x in missing <==> x in backs.Keys - Seen(ps, backs)
    requires k in backs
    ensures Agrees(NewPairs(ps, missing, backs), k, backs[k]) && Assigns(NewPairs(ps, missing, backs), k)
  {
    var q := NewPairs(ps, missing, backs);
    forall i | 0 <= i < |q| && q[i].Some? && q[i].value.key == k ensures q[i].value.val == backs[k] {
      if i >= |ps| {
        assert q[|ps| + (i - |ps|)] == q[i];
      }
    }
    if k in Seen(ps, backs) {
      SeenIsAssigned(ps, backs, k);
      var i :| 0 <= i < |ps| && ps[i].Some? && ps[i].value.key == k;
      assert q[i].value.key == k;
    } else {
      assert k in missing;
      var j :| 0 <= j < |missing| && missing[j] == k;
      assert q[|ps| + j].value.key == k;
    }
  }

  lemma {:induction false} ManagedIsSettable(k: string, v: string)
    requires ManagedShape(k)
    ensures Settable(Pair(k, v)) <==> '\0' !in v
  {
  }

  /**
   Loading a saved file into an empty environment sets an updated key to its new value, duplicates of
   the key in the old file notwithstanding, exactly when the value is representable and free of NULs.
   */
  lemma {:induction false} SaveThenLoad(
    text: Option<string>, missing: seq<string>, updates: map<string, string>, k: string)
    requires ManagedKeys(updates) && NoNewlines(updates) && IsMissing(missing, Parsed(Lines(text)), updates)
    requires k in updates
    ensures var env := FirstWins(Parsed(Split(Render(NewLines(Lines(text), missing, updates)))), map[]);
      k in env && env[k] == updates[k] <==> Representable(updates[k]) && '\0' !in updates[k]
  {
    hide NewLines;
    hide Render;
    hide Lines;
    hide Parsed;
    hide ParseLine;
    hide Representable;
    hide ManagedShape;
    hide Settable;
    var lines, ps, backs := NewLines(Lines(text), missing, updates), Parsed(Lines(text)), BackAll(updates);
    NewLinesOneLiners(Lines(text), missing, updates);
    RenderReads(lines);
    NewLinesRead(Lines(text), missing, updates);
    SeenByKeys(ps, updates, backs);
    NewPairsAgree(ps, missing, backs, k);
    FirstOfAgreeing(Parsed(lines), k, backs[k]);
    ValueSurvives(updates[k]);
    ManagedIsSettable(k, backs[k]);
  }

  /**
   So what is posted from the Settings page is loaded after a restart exactly when it has no NUL in it, if
   none of the values has a line break.
   */
  lemma {:induction false} SettingsLoad(
    text: Option<string>, missing: seq<string>, values: map<string, string>, managed: set<string>, secret: set<string>,
    k: string)
    requires ManagedKeys(Posted(values, managed, secret)) && NoNewlines(Posted(values, managed, secret))
    requires IsMissing(missing, Parsed(Lines(text)), Posted(values, managed, secret))
    requires k in Posted(values, managed, secret)
    ensures var updates := Posted(values, managed, secret);
      var env := FirstWins(Parsed(Split(Render(NewLines(Lines(text), missing, updates)))), map[]);
      k in env && env[k] == updates[k] <==> '\0' !in updates[k]
  {
    PostedIsRepresentable(values, managed, secret);
    SaveThenLoad(text, missing, Posted(values, managed, secret), k);
    hide *;
  }

  /** A value with a NUL in it is not loaded. */
  lemma {:induction false} NulIsNotLoaded()
    ensures var key := STATION_NAME;
      var updates := Posted(map[key := "a\0b"], {key}, {});
      && updates == map[key := "a\0b"] && NoNewlines(updates) && IsMissing([key], Parsed(Lines(None)), updates)
      && var env := FirstWins(Parsed(Split(Render(NewLines(Lines(None), [key], updates)))), map[]);
         !(key in env && env[key] == "a\0b")
  {
    var key, v := STATION_NAME, "a\0b";
    assert ManagedShape(key) && v[1] == '\0';
    PostedAsTyped(key, v);
    hide Posted;
    OneNewKey(key, v);
    SaveThenLoad(None, [key], map[key := v], key);
  }

  /** An environment variable that is already set wins over the file. */
  lemma {:induction false} EnvironmentWins(ps: seq<Option<Pair>>, env: map<string, string>, k: string)
    requires k in env
    ensures k in FirstWins(ps, env) && FirstWins(ps, env)[k] == env[k]
  {
    if ps != [] {
      EnvironmentWins(ps[..|ps| - 1], env, k);
    }
  }
}
