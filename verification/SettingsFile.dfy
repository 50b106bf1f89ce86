/** The text form of the settings file and its two readers. */
module SettingsFile {
  import opened Text
  import opened Wrappers

  const NEWLINE := '\n'
  const EQ := '='

  // ---- Lines ----

  /** The pieces between newlines, as repeated getline calls yield them; the last one may be empty. */
  function Lines(text: string): (lines: seq<string>)
    ensures |lines| > 0
    decreases |text|
  {
    var i := FirstIndex(text, NEWLINE);
    if i == -1 then [text] else [text[..i]] + Lines(text[i + 1..])
  }

  lemma LinesOfLine(line: string, rest: string)
    requires NEWLINE !in line
    ensures Lines(line + [NEWLINE] + rest) == [line] + Lines(rest)
  {
    var text := line + [NEWLINE] + rest;
    FirstIndexIs(text, NEWLINE, |line|);
    assert text[..|line|] == line && text[|line| + 1..] == rest;
  }

  // ---- Writing ----

  type Data = map<string, string>

  /** `order` lists the keys of `m`: the order in which the JSON object is iterated. */
  ghost predicate Enumerates(order: seq<string>, m: Data) {
    && (forall k :: k in order <==> k in m)
    && (forall i, j :: 0 <= i < j < |order| ==> order[i] != order[j])
  }

  function Line(k: string, v: string): string { k + [EQ] + v }

  /** The text of the entries whose values are not empty. */
  function Render(order: seq<string>, m: Data): string
    requires forall k :: k in order ==> k in m
  {
    if order == [] then ""
    else (if m[order[0]] == "" then "" else Line(order[0], m[order[0]]) + [NEWLINE]) + Render(order[1..], m)
  }

  /** The lines that hold entries. */
  function EntryLines(order: seq<string>, m: Data): seq<string>
    requires forall k :: k in order ==> k in m
  {
    if order == [] then []
    else (if m[order[0]] == "" then [] else [Line(order[0], m[order[0]])]) + EntryLines(order[1..], m)
  }

  /** What is written for an entry: key, equals sign, value and a line end, or nothing if the value is empty. */
  lemma EntryText(k: string, v: string, order: seq<string>, m: Data)
    requires order != [] && (forall x :: x in order ==> x in m) && order[0] == k && m[k] == v
    ensures Render(order, m) == (if v == "" then "" else k + "=" + v + "\n") + Render(order[1..], m)
  {
    assert Line(k, v) == k + "=" + v;
  }

  ghost predicate OneLineText(m: Data) {
    forall k :: k in m ==> NEWLINE !in k && NEWLINE !in m[k]
  }

  lemma LinesOfNothing()
    ensures Lines("") == [""]
  {}

  lemma {:induction false} LinesOfRender(order: seq<string>, m: Data)
    requires (forall k :: k in order ==> k in m) && OneLineText(m)
    ensures Lines(Render(order, m)) == EntryLines(order, m) + [""]
  {
    hide Lines, FirstIndex;
    if order == [] {
      LinesOfNothing();
    } else {
      LinesOfRender(order[1..], m);
      var k, rest := order[0], Render(order[1..], m);
      if m[k] != "" {
        assert NEWLINE !in Line(k, m[k]);
        LinesOfLine(Line(k, m[k]), rest);
      } else {
        assert "" + rest == rest;
        assert EntryLines(order, m) == EntryLines(order[1..], m);
      }
    }
  }

  // ---- Reading: readFromFile splits at the last '=' ----

  function PutLine(d: Data, line: string): Data {
    var p := LastIndex(line, EQ);
    if p == -1 then d else d[line[..p] := line[p + 1..]]
  }

  function ReadLines(lines: seq<string>, d: Data): Data {
    if lines == [] then d else ReadLines(lines[1..], PutLine(d, lines[0]))
  }

  function ReadFile(text: string, d: Data): Data { ReadLines(Lines(text), d) }

  // ---- Reading: parseConfigFile splits at the first '=' and stops at the first match ----

  function FindKey(lines: seq<string>, key: string): Option<string> {
    if lines == [] then None
    else
      var p := FirstIndex(lines[0], EQ);
      if p != -1 && lines[0][..p] == key then Some(lines[0][p + 1..]) else FindKey(lines[1..], key)
  }

  function ParseConfigFile(text: string, key: string): Option<string> { FindKey(Lines(text), key) }

  // ---- The round trip ----

  function NonEmpty(m: Data): Data { map k | k in m && m[k] != "" :: m[k] }

  lemma LineSplits(k: string, v: string)
    ensures EQ !in v ==> LastIndex(Line(k, v), EQ) == |k|
    ensures EQ !in k ==> FirstIndex(Line(k, v), EQ) == |k|
    ensures Line(k, v)[..|k|] == k && Line(k, v)[|k| + 1..] == v
  {
    var l := Line(k, v);
    assert l[..|k|] == k && l[|k| + 1..] == v;
    if EQ !in v { LastIndexIs(l, EQ, |k|); }
    if EQ !in k { FirstIndexIs(l, EQ, |k|); }
  }

  /** What reading the entry lines amounts to. */
  function AddAll(order: seq<string>, m: Data, d: Data): Data
    requires forall k :: k in order ==> k in m
  {
    if order == [] then d
    else AddAll(order[1..], m, if m[order[0]] == "" then d else d[order[0] := m[order[0]]])
  }

  lemma {:induction false} AddAllHolds(order: seq<string>, m: Data, d: Data, k: string)
    requires forall k :: k in order ==> k in m
    ensures k in AddAll(order, m, d) <==> k in d || (k in order && m[k] != "")
    ensures k in AddAll(order, m, d) ==> AddAll(order, m, d)[k] == if k in order && m[k] != "" then m[k] else d[k]
  {
    if order != [] {
      AddAllHolds(order[1..], m, if m[order[0]] == "" then d else d[order[0] := m[order[0]]], k);
    }
  }

  lemma AddAllIsNonEmpty(order: seq<string>, m: Data)
    requires Enumerates(order, m)
    ensures AddAll(order, m, map[]) == NonEmpty(m)
  {
    forall k ensures k in AddAll(order, m, map[]) <==> k in NonEmpty(m)
      ensures k in NonEmpty(m) ==> AddAll(order, m, map[])[k] == m[k]
    {
      AddAllHolds(order, m, map[], k);
    }
  }

  lemma {:induction false} ReadBack(order: seq<string>, m: Data, d: Data)
    requires forall k :: k in order ==> k in m
    requires forall k :: k in m && m[k] != "" ==> EQ !in m[k]
    ensures ReadLines(EntryLines(order, m) + [""], d) == AddAll(order, m, d)
  {
    if order == [] {
      assert EntryLines(order, m) + [""] == [""];
      assert ReadLines([""], d) == ReadLines([], d);
    } else {
      var k, tail := order[0], EntryLines(order[1..], m) + [""];
      if m[k] == "" {
        ReadBack(order[1..], m, d);
        assert EntryLines(order, m) + [""] == tail;
      } else {
        LineSplits(k, m[k]);
        assert EntryLines(order, m) + [""] == [Line(k, m[k])] + tail;
        ReadBack(order[1..], m, d[k := m[k]]);
      }
    }
  }

  /** A value read at the last '=' holds no '='. */
  lemma {:induction false} ReadValuesHaveNoEq(lines: seq<string>, d: Data)
    requires forall k :: k in d ==> EQ !in d[k]
    ensures forall k :: k in ReadLines(lines, d) ==> EQ !in ReadLines(lines, d)[k]
  {
    if lines != [] {
      ReadValuesHaveNoEq(lines[1..], PutLine(d, lines[0]));
    }
  }

  /** Reading a written file gives back the entries with non-empty values exactly when no such value contains '='. */
  lemma RoundTripIff(order: seq<string>, m: Data)
    requires Enumerates(order, m) && OneLineText(m)
    ensures ReadFile(Render(order, m), map[]) == NonEmpty(m) <==> forall k :: k in m && m[k] != "" ==> EQ !in m[k]
  {
    LinesOfRender(order, m);
    if forall k :: k in m && m[k] != "" ==> EQ !in m[k] {
      ReadBack(order, m, map[]);
      AddAllIsNonEmpty(order, m);
    }
    if ReadFile(Render(order, m), map[]) == NonEmpty(m) {
      ReadValuesHaveNoEq(Lines(Render(order, m)), map[]);
      forall k | k in m && m[k] != "" ensures EQ !in m[k] {
        assert k in NonEmpty(m);
      }
    }
  }

  /** A settings object says it contains a key when it holds a non-empty value for it. */
  predicate Contains(m: Data, key: string) { key in m && m[key] != "" }

  /** Writing and reading back preserves `contains` and every value it vouches for. */
  lemma ContainsSurvives(order: seq<string>, m: Data, key: string)
    requires Enumerates(order, m) && OneLineText(m) && forall k :: k in m && m[k] != "" ==> EQ !in m[k]
    ensures var r := ReadFile(Render(order, m), map[]);
      (Contains(r, key) <==> Contains(m, key)) && (Contains(m, key) ==> r[key] == m[key])
  {
    RoundTripIff(order, m);
  }

  lemma FindInLine(k: string, v: string, tail: seq<string>, key: string)
    requires EQ !in k
    ensures FindKey([Line(k, v)] + tail, key) == if k == key then Some(v) else FindKey(tail, key)
  {
    hide LastIndex, FirstIndex;
    LineSplits(k, v);
    assert ([Line(k, v)] + tail)[1..] == tail;
  }

  lemma FindInLastLine(key: string)
    ensures FindKey([] + [""], key) == None
  {
    assert [] + [""] == [""] && FindKey([""], key) == FindKey([], key);
  }

  lemma {:induction false} FoundIsThere(order: seq<string>, m: Data, key: string)
    requires (forall k :: k in order ==> k in m) && forall k :: k in m && m[k] != "" ==> EQ !in k
    ensures FindKey(EntryLines(order, m) + [""], key) == if key in order && m[key] != "" then Some(m[key]) else None
  {
    hide FindKey, Line;
    if order == [] {
      FindInLastLine(key);
    } else {
      var k, tail := order[0], EntryLines(order[1..], m) + [""];
      FoundIsThere(order[1..], m, key);
      if m[k] == "" {
        assert EntryLines(order, m) + [""] == tail;
      } else {
        FindInLine(k, m[k], tail, key);
        assert EntryLines(order, m) + [""] == [Line(k, m[k])] + tail;
      }
    }
  }

  lemma {:induction false} FoundKeysHaveNoEq(lines: seq<string>, key: string)
    ensures FindKey(lines, key).Some? ==> EQ !in key
  {
    if lines != [] {
      FoundKeysHaveNoEq(lines[1..], key);
    }
  }

  function Lookup(m: Data, key: string): Option<string> {
    if key in m then Some(m[key]) else None
  }

  /** On a written file whose values have no '=', the first-'=' reader agrees with the last-'=' reader on every key
      exactly when no stored key contains '='. */
  lemma ReadersAgreeIff(order: seq<string>, m: Data)
    requires Enumerates(order, m) && OneLineText(m) && forall k :: k in m && m[k] != "" ==> EQ !in m[k]
    ensures (forall key :: ParseConfigFile(Render(order, m), key) == Lookup(ReadFile(Render(order, m), map[]), key))
      <==> (forall k :: k in m && m[k] != "" ==> EQ !in k)
  {
    var text := Render(order, m);
    RoundTripIff(order, m);
    LinesOfRender(order, m);
    if forall k :: k in m && m[k] != "" ==> EQ !in k {
      forall key ensures ParseConfigFile(text, key) == Lookup(ReadFile(text, map[]), key) {
        FoundIsThere(order, m, key);
      }
    }
    if forall key :: ParseConfigFile(text, key) == Lookup(ReadFile(text, map[]), key) {
      forall k | k in m && m[k] != "" ensures EQ !in k {
        assert ParseConfigFile(text, k) == Lookup(ReadFile(text, map[]), k);
        assert k in NonEmpty(m);
        FoundKeysHaveNoEq(Lines(text), k);
      }
    }
  }

  // ---- What was written is what its own entries would write ----

  /** The keys with non-empty values, in order. */
  function Kept(order: seq<string>, m: Data): seq<string>
    requires forall k :: k in order ==> k in m
  {
    if order == [] then []
    else (if m[order[0]] == "" then [] else [order[0]]) + Kept(order[1..], m)
  }

  lemma {:induction false} KeptHolds(order: seq<string>, m: Data, k: string)
    requires forall k :: k in order ==> k in m
    ensures k in Kept(order, m) <==> k in order && m[k] != ""
  {
    if order != [] {
      KeptHolds(order[1..], m, k);
    }
  }

  lemma {:induction false} KeptIsDistinct(order: seq<string>, m: Data)
    requires forall k :: k in order ==> k in m
    requires forall i, j :: 0 <= i < j < |order| ==> order[i] != order[j]
    ensures forall i, j :: 0 <= i < j < |Kept(order, m)| ==> Kept(order, m)[i] != Kept(order, m)[j]
  {
    if order != [] {
      KeptIsDistinct(order[1..], m);
      assert order[0] !in order[1..];
      KeptHolds(order[1..], m, order[0]);
    }
  }

  lemma {:induction false} KeptRenders(order: seq<string>, m: Data, r: Data)
    requires forall k :: k in order ==> k in m
    requires forall k :: k in order && m[k] != "" ==> k in r && r[k] == m[k]
    requires forall k :: k in Kept(order, m) ==> k in r
    ensures Render(Kept(order, m), r) == Render(order, m)
  {
    if order != [] {
      hide Line;
      var kept := Kept(order[1..], m);
      forall k | k in kept ensures k in r {
        KeptHolds(order[1..], m, k);
      }
      KeptRenders(order[1..], m, r);
      if m[order[0]] == "" {
        assert Kept(order, m) == kept;
      } else {
        assert Kept(order, m)[1..] == kept;
      }
    }
  }

  /** A written text is also the rendering of its entries with non-empty values alone. */
  lemma RenderedByNonEmpty(order: seq<string>, m: Data) returns (kept: seq<string>)
    requires Enumerates(order, m)
    ensures Enumerates(kept, NonEmpty(m)) && Render(kept, NonEmpty(m)) == Render(order, m)
  {
    kept := Kept(order, m);
    forall k ensures k in kept <==> k in NonEmpty(m) {
      KeptHolds(order, m, k);
    }
    KeptIsDistinct(order, m);
    KeptRenders(order, m, NonEmpty(m));
  }

  /** Every settings object can be enumerated. */
  lemma {:induction false} SomeOrder(m: Data) returns (order: seq<string>)
    ensures Enumerates(order, m)
    decreases |m|
  {
    if m == map[] {
      order := [];
    } else {
      var k :| k in m;
      var rest := SomeOrder(m - {k});
      order := rest + [k];
    }
  }
}
