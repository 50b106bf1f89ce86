/** `readPropertyFromFile`: property lookup with recursive `$` references. */
module PropertyFile {
  import opened Text

  /** The outcome of a lookup cut off at some depth of nested calls. */
  datatype Outcome = Deep | Missing | Found(value: string)

  predicate Comment(line: string) { line != "" && line[0] == '#' }

  /** The line starts with the property followed by a space or by '='. */
  predicate Matches(line: string, property: string) {
    !Comment(line) && (property + " " <= line || property + "=" <= line)
  }

  /** What follows the first '='; the whole line if there is none. */
  function Content(line: string): string { line[FirstIndex(line, '=') + 1..] }

  predicate IsReference(content: string) { content != "" && content[0] == '$' }

  function Chomp(s: string): string {
    if s != "" && (s[|s| - 1] == '\r' || s[|s| - 1] == '\n') then s[..|s| - 1] else s
  }

  /** The lookup, allowing calls nested `depth` deep. */
  function Read(lines: seq<string>, property: string, depth: nat): Outcome
    decreases depth, |lines| + 1
  {
    if depth == 0 then Deep else Scan(lines, 0, property, depth)
  }

  function Scan(lines: seq<string>, i: nat, property: string, depth: nat): Outcome
    requires i <= |lines| && depth > 0
    decreases depth, |lines| - i
  {
    if i == |lines| then Missing
    else if !Matches(lines[i], property) then Scan(lines, i + 1, property, depth)
    else
      match Resolve(lines, lines[i], depth)
      case Deep => Deep
      case Found(v) => Found(v)
      case Missing => Scan(lines, i + 1, property, depth)
  }

  /** What a matching line gives: its own text, or the lookup of what it refers to. */
  function Resolve(lines: seq<string>, line: string, depth: nat): Outcome
    requires depth > 0
    decreases depth, 0
  {
    var content := Content(line);
    if IsReference(content) then Read(lines, content[1..], depth - 1) else Found(Chomp(content))
  }

  // ---- More depth changes nothing once the lookup is not cut off ----

  lemma {:induction false} DeeperIsTheSame(lines: seq<string>, property: string, d: nat, e: nat)
    requires d <= e && Read(lines, property, d) != Deep
    ensures Read(lines, property, e) == Read(lines, property, d)
    decreases d, |lines| + 1
  {
    DeeperScan(lines, 0, property, d, e);
  }

  lemma {:induction false} DeeperScan(lines: seq<string>, i: nat, property: string, d: nat, e: nat)
    requires i <= |lines| && 0 < d <= e && Scan(lines, i, property, d) != Deep
    ensures Scan(lines, i, property, e) == Scan(lines, i, property, d)
    decreases d, |lines| - i
  {
    if i < |lines| {
      if Matches(lines[i], property) {
        var content := Content(lines[i]);
        if IsReference(content) {
          DeeperIsTheSame(lines, content[1..], d - 1, e - 1);
        }
        if Resolve(lines, lines[i], d) == Missing { DeeperScan(lines, i + 1, property, d, e); }
      } else {
        DeeperScan(lines, i + 1, property, d, e);
      }
    }
  }

  // ---- The depth is bounded by the number of lines ----

  /** `q` is referred to by a line for `p`. */
  ghost predicate RefersTo(lines: seq<string>, p: string, q: string) {
    exists line :: line in lines && Matches(line, p) && Content(line) == ['$'] + q
  }

  /** Everything some line refers to. */
  function Targets(lines: seq<string>): set<string> {
    if lines == [] then {}
    else (if IsReference(Content(lines[0])) then {Content(lines[0])[1..]} else {}) + Targets(lines[1..])
  }

  lemma {:induction false} TargetsAreFew(lines: seq<string>)
    ensures |Targets(lines)| <= |lines|
  {
    if lines != [] {
      TargetsAreFew(lines[1..]);
      var first := if IsReference(Content(lines[0])) then {Content(lines[0])[1..]} else {};
      assert |first| <= 1;
      UnionSize(first, Targets(lines[1..]));
    }
  }

  lemma UnionSize(a: set<string>, b: set<string>)
    ensures |a + b| <= |a| + |b|
  {
    assert a + b == a + (b - a);
    assert b == (b - a) + (b * a);
  }

  lemma SubsetSize(a: set<string>, b: set<string>)
    requires a <= b
    ensures |a| <= |b|
  {
    assert b == a + (b - a);
  }

  lemma {:induction false} TargetThere(lines: seq<string>, line: string)
    requires line in lines && IsReference(Content(line))
    ensures Content(line)[1..] in Targets(lines)
  {
    if lines[0] != line { TargetThere(lines[1..], line); }
  }

  /** If a lookup needs depth `d`, one of its references needs `d - 1`. */
  lemma {:induction false} ReferenceNeedsOneLess(lines: seq<string>, i: nat, property: string, d: nat)
    returns (q: string)
    requires i <= |lines| && d >= 2
    requires Scan(lines, i, property, d) != Deep && Scan(lines, i, property, d - 1) == Deep
    ensures q in Targets(lines) && Read(lines, q, d - 1) != Deep && Read(lines, q, d - 2) == Deep
    decreases |lines| - i
  {
    hide Matches, Content, FirstIndex, Targets, Chomp, Comment;
    if !Matches(lines[i], property) {
      q := ReferenceNeedsOneLess(lines, i + 1, property, d);
    } else {
      q := Content(lines[i])[1..];
      TargetThere(lines, lines[i]);
      if Read(lines, q, d - 2) != Deep {
        DeeperIsTheSame(lines, q, d - 2, d - 1);
        q := ReferenceNeedsOneLess(lines, i + 1, property, d);
      }
    }
  }

  /** A lookup that needs depth `d` runs through `d - 1` different references. */
  lemma {:induction false} NeededDepth(lines: seq<string>, property: string, d: nat) returns (passed: set<string>)
    requires d >= 1 && Read(lines, property, d) != Deep && Read(lines, property, d - 1) == Deep
    ensures passed <= Targets(lines) && |passed| == d - 1
    ensures forall q :: q in passed ==> Read(lines, q, d - 1) != Deep
    decreases d
  {
    if d == 1 {
      passed := {};
    } else {
      var q := ReferenceNeedsOneLess(lines, 0, property, d);
      var rest := NeededDepth(lines, q, d - 1);
      forall x | x in rest ensures Read(lines, x, d - 1) != Deep {
        DeeperIsTheSame(lines, x, d - 2, d - 1);
      }
      passed := rest + {q};
    }
  }

  /** A lookup terminates at all exactly when it does within one call more than the file has lines. */
  lemma TerminatesIffShallow(lines: seq<string>, property: string)
    ensures (exists d: nat :: Read(lines, property, d) != Deep) <==> Read(lines, property, |lines| + 1) != Deep
    ensures forall d: nat :: Read(lines, property, d) != Deep ==>
      Read(lines, property, d) == Read(lines, property, |lines| + 1)
  {
    forall d: nat | Read(lines, property, d) != Deep
      ensures Read(lines, property, d) == Read(lines, property, |lines| + 1)
    {
      ShallowEnough(lines, property, d);
    }
  }

  lemma {:induction false} ShallowEnough(lines: seq<string>, property: string, d: nat)
    requires Read(lines, property, d) != Deep
    ensures Read(lines, property, d) == Read(lines, property, |lines| + 1)
    decreases d
  {
    if d <= |lines| + 1 {
      DeeperIsTheSame(lines, property, d, |lines| + 1);
    } else if Read(lines, property, d - 1) != Deep {
      DeeperIsTheSame(lines, property, d - 1, d);
      ShallowEnough(lines, property, d - 1);
    } else {
      var passed := NeededDepth(lines, property, d);
      TargetsAreFew(lines);
      SubsetSize(passed, Targets(lines));
      assert false;
    }
  }

  // ---- Acyclic references ----

  ghost predicate Chain(lines: seq<string>, path: seq<string>) {
    forall j :: 0 <= j < |path| - 1 ==> RefersTo(lines, path[j], path[j + 1])
  }

  /** No chain of references from the property comes back to itself. */
  ghost predicate Acyclic(lines: seq<string>, property: string) {
    forall path: seq<string> :: |path| > 0 && path[0] == property && Chain(lines, path) ==>
      forall i, j :: 0 <= i < j < |path| ==> path[i] != path[j]
  }

  function Elements(path: seq<string>): set<string> { set x | x in path }

  lemma {:induction false} DistinctSize(path: seq<string>)
    requires forall i, j :: 0 <= i < j < |path| ==> path[i] != path[j]
    ensures |Elements(path)| == |path|
  {
    if path != [] {
      var n := |path| - 1;
      DistinctSize(path[..n]);
      assert Elements(path) == Elements(path[..n]) + {path[n]};
    }
  }

  lemma ChainsAreShort(lines: seq<string>, path: seq<string>)
    requires |path| > 0 && Chain(lines, path) && Acyclic(lines, path[0])
    ensures |path| <= |lines| + 1
  {
    DistinctSize(path[1..]);
    forall x | x in Elements(path[1..]) ensures x in Targets(lines) {
      var j :| 0 <= j < |path| - 1 && path[1..][j] == x;
      assert RefersTo(lines, path[j], path[j + 1]);
      var line :| line in lines && Matches(line, path[j]) && Content(line) == ['$'] + x;
      TargetThere(lines, line);
      assert Content(line)[1..] == x;
    }
    TargetsAreFew(lines);
    SubsetSize(Elements(path[1..]), Targets(lines));
  }

  lemma LongerChain(lines: seq<string>, path: seq<string>, q: string)
    requires |path| > 0 && Chain(lines, path) && RefersTo(lines, path[|path| - 1], q)
    ensures Chain(lines, path + [q])
  {
    hide RefersTo;
    var longer := path + [q];
    forall j | 0 <= j < |longer| - 1 ensures RefersTo(lines, longer[j], longer[j + 1]) {
      if j < |path| - 1 { assert RefersTo(lines, path[j], path[j + 1]); }
    }
  }

  lemma {:induction false} ChainIsFollowed(lines: seq<string>, path: seq<string>, i: nat)
    requires |path| > 0 && Chain(lines, path) && Acyclic(lines, path[0]) && |path| <= |lines| + 1 && i <= |lines|
    ensures Scan(lines, i, path[|path| - 1], |lines| + 2 - |path|) != Deep
    decreases |lines| + 2 - |path|, |lines| - i
  {
    hide Matches, FirstIndex, Targets, Chomp, Comment, Acyclic;
    var p, depth := path[|path| - 1], |lines| + 2 - |path|;
    if i < |lines| {
      ChainIsFollowed(lines, path, i + 1);
      var content := Content(lines[i]);
      if Matches(lines[i], p) && IsReference(content) {
        var q := content[1..];
        assert content == ['$'] + q && lines[i] in lines;
        assert RefersTo(lines, p, q);
        var longer := path + [q];
        LongerChain(lines, path, q);
        ChainsAreShort(lines, longer);
        assert longer[|longer| - 1] == q && |lines| + 2 - |longer| == depth - 1;
        ChainIsFollowed(lines, longer, 0);
        assert Read(lines, q, depth - 1) != Deep;
      }
    }
  }

  /** If the references reachable from a property are acyclic, its lookup terminates, nested at most one deeper than the
      file has lines. */
  lemma AcyclicTerminates(lines: seq<string>, property: string)
    requires Acyclic(lines, property)
    ensures Read(lines, property, |lines| + 1) != Deep
  {
    ChainIsFollowed(lines, [property], 0);
  }

  /** Line `i` is the first that matches the property. */
  predicate FirstMatch(lines: seq<string>, property: string, i: nat) {
    i < |lines| && Matches(lines[i], property) && forall k :: 0 <= k < i ==> !Matches(lines[k], property)
  }

  lemma {:induction false} ScanReaches(lines: seq<string>, property: string, i: nat, k: nat, depth: nat)
    requires FirstMatch(lines, property, i) && k <= i && depth > 0
    ensures Scan(lines, k, property, depth) == Scan(lines, i, property, depth)
    decreases i - k
  {
    if k < i {
      ScanReaches(lines, property, i, k + 1, depth);
    }
  }

  /** A property whose first matching line refers to the property itself is looked up for ever, in any file. */
  lemma {:induction false} SelfReferenceNeverEnds(lines: seq<string>, property: string, i: nat, depth: nat)
    requires FirstMatch(lines, property, i) && Content(lines[i]) == "$" + property
    ensures Read(lines, property, depth) == Deep
  {
    if depth > 0 {
      SelfReferenceNeverEnds(lines, property, i, depth - 1);
      ScanReaches(lines, property, i, 0, depth);
      assert Content(lines[i])[1..] == property;
    }
  }

  /** One such file. */
  lemma SelfReferenceExists()
    ensures FirstMatch(["A=$A"], "A", 0) && Content("A=$A") == "$" + "A"
  {
    var line := "A=$A";
    assert "A" + "=" == "A=" && "A=" <= line;
    assert line[0] == 'A' && line[1] == '=' && '=' !in line[..1];
    FirstIndexIs(line, '=', 1);
    assert line[2..] == "$A" == "$" + "A";
  }

  /** A first matching line without '=' is itself the value, unless it begins with '$'. */
  lemma WholeLineIsTheValue(lines: seq<string>, property: string, i: nat, depth: nat)
    requires FirstMatch(lines, property, i) && '=' !in lines[i] && !IsReference(lines[i]) && depth > 0
    ensures Read(lines, property, depth) == Found(Chomp(lines[i]))
  {
    ScanReaches(lines, property, i, 0, depth);
    assert lines[i][0..] == lines[i];
  }

  /** The value of a line is the whole line exactly if it holds no '='. */
  lemma WholeLineIff(line: string)
    ensures Content(line) == line <==> '=' !in line
  {
    assert line[0..] == line;
  }

  /** One such file. */
  lemma WholeLineExists()
    ensures FirstMatch(["A B"], "A", 0) && '=' !in "A B" && !IsReference("A B")
  {
    var line := "A B";
    assert "A" + " " == "A " && "A " <= line && line[0] == 'A';
  }

  /** A line `p=v` gives `v`, whatever further equals signs `v` holds, exactly if `p` holds none. */
  lemma ValueFollowsThePropertyIff(p: string, v: string)
    ensures Content(p + "=" + v) == v <==> '=' !in p
  {
    var line := p + "=" + v;
    assert line[|p|] == '=' && line[|p| + 1..] == v && line[..|p|] == p;
    if '=' !in p {
      FirstIndexIs(line, '=', |p|);
    } else {
      var k := FirstIndex(p, '=');
      assert line[..k] == p[..k];
      FirstIndexIs(line, '=', k);
      assert |Content(line)| > |v|;
    }
  }

  /** A first matching line whose value is no reference ends the lookup with that value. */
  lemma ValueOfTheLine(lines: seq<string>, i: nat, p: string, v: string, depth: nat)
    requires FirstMatch(lines, p, i) && lines[i] == p + "=" + v && '=' !in p && !IsReference(v) && depth > 0
    ensures Read(lines, p, depth) == Found(Chomp(v))
  {
    ValueFollowsThePropertyIff(p, v);
    hide Content, Chomp;
    ScanReaches(lines, p, i, 0, depth);
  }

  /** Exactly one carriage return or line feed is taken off the end of a value, if there is one. */
  lemma ChompTakesOne(v: string)
    ensures Chomp(v + "\r") == v && Chomp(v + "\n") == v
    ensures v == "" || (v[|v| - 1] != '\r' && v[|v| - 1] != '\n') ==> Chomp(v) == v
  {
    assert (v + "\r")[..|v|] == v && (v + "\n")[..|v|] == v;
  }

  // ---- Which lines count ----

  /** Of the lines that begin with the property, exactly those match that go on with a space or an equals sign and are
      no comment: a longer name is not taken for a shorter one. */
  lemma LongerNameIsNoMatchIff(p: string, c: char, rest: string)
    ensures Matches(p + [c] + rest, p) <==> (c == ' ' || c == '=') && (p == "" || p[0] != '#')
    ensures !Matches(p, p)
  {
    var line := p + [c] + rest;
    assert line[|p|] == c && line[..|p|] == p;
    assert p + " " <= line ==> line[|p|] == (p + " ")[|p|];
    assert p + "=" <= line ==> line[|p|] == (p + "=")[|p|];
    assert c == ' ' ==> line[..|p| + 1] == p + " ";
    assert c == '=' ==> line[..|p| + 1] == p + "=";
    assert p != "" ==> line[0] == p[0];
  }

  lemma CommentIsPassed(lines: seq<string>, i: nat, p: string, depth: nat)
    requires i < |lines| && lines[i] != "" && lines[i][0] == '#' && depth > 0
    ensures Scan(lines, i, p, depth) == Scan(lines, i + 1, p, depth)
  {}

  /** A line that begins with # changes no lookup, wherever it stands. */
  lemma {:induction false} CommentChangesNothing(a: seq<string>, c: string, b: seq<string>, p: string, depth: nat)
    requires c != "" && c[0] == '#'
    ensures Read(a + [c] + b, p, depth) == Read(a + b, p, depth)
    decreases depth, |a + b| + 2
  {
    if depth > 0 {
      if a == [] {
        CommentIsPassed(a + [c] + b, 0, p, depth);
      }
      ScanPastComment(a, c, b, 0, p, depth);
    }
  }

  lemma {:induction false} ScanPastComment(a: seq<string>, c: string, b: seq<string>, i: nat, p: string, depth: nat)
    requires c != "" && c[0] == '#' && i <= |a + b| && depth > 0
    ensures Scan(a + [c] + b, if i < |a| then i else i + 1, p, depth) == Scan(a + b, i, p, depth)
    decreases depth, |a + b| - i
  {
    var with, without, k := a + [c] + b, a + b, if i < |a| then i else i + 1;
    if i < |without| {
      assert with[k] == without[i];
      if i + 1 == |a| {
        CommentIsPassed(with, |a|, p, depth);
      }
      var content := Content(without[i]);
      if IsReference(content) {
        CommentChangesNothing(a, c, b, content[1..], depth - 1);
      }
      ScanPastComment(a, c, b, i + 1, p, depth);
    }
  }

  // ---- When a lookup goes on for ever ----

  /** The lookup of `p` gets as far as line `i`, a reference to `q`: the matching lines before it resolve to nothing. */
  predicate FollowsAt(lines: seq<string>, i: nat, p: string, q: string) {
    && i < |lines| && Matches(lines[i], p) && Content(lines[i]) == "$" + q
    && forall k :: 0 <= k < i && Matches(lines[k], p) ==> Resolve(lines, lines[k], |lines| + 2) == Missing
  }

  ghost predicate Follows(lines: seq<string>, p: string, q: string) {
    exists i: nat :: FollowsAt(lines, i, p, q)
  }

  ghost predicate FollowedChain(lines: seq<string>, path: seq<string>) {
    forall j :: 0 <= j < |path| - 1 ==> Follows(lines, path[j], path[j + 1])
  }

  predicate Repeats(path: seq<string>) {
    exists i, j :: 0 <= i < j < |path| && path[i] == path[j]
  }

  lemma ResolvesTheSame(lines: seq<string>, line: string, d: nat, e: nat)
    requires d > 0 && e > 0 && Resolve(lines, line, d) != Deep && Resolve(lines, line, e) != Deep
    ensures Resolve(lines, line, d) == Resolve(lines, line, e)
  {
    var content := Content(line);
    if IsReference(content) {
      if d <= e {
        DeeperIsTheSame(lines, content[1..], d - 1, e - 1);
      } else {
        DeeperIsTheSame(lines, content[1..], e - 1, d - 1);
      }
    }
  }

  lemma {:induction false} ScanFollows(lines: seq<string>, k: nat, i: nat, p: string, q: string, d: nat)
    requires FollowsAt(lines, i, p, q) && k <= i && d > 0 && Scan(lines, k, p, d) != Deep
    ensures Read(lines, q, d - 1) != Deep
    decreases i - k
  {
    hide Matches, Content, FirstIndex, Read;
    assert ("$" + q)[1..] == q;
    if k < i {
      if Matches(lines[k], p) {
        ResolvesTheSame(lines, lines[k], d, |lines| + 2);
      }
      ScanFollows(lines, k + 1, i, p, q, d);
    }
  }

  /** A followed chain whose first lookup ends takes one call less at each reference. */
  lemma {:induction false} ChainCosts(lines: seq<string>, path: seq<string>, d: nat)
    requires |path| > 0 && FollowedChain(lines, path) && Read(lines, path[0], d) != Deep
    ensures d >= |path| && Read(lines, path[|path| - 1], d - (|path| - 1)) != Deep
    decreases |path|
  {
    if |path| > 1 {
      hide Scan, FollowsAt;
      assert Follows(lines, path[0], path[1]);
      var i: nat :| FollowsAt(lines, i, path[0], path[1]);
      ScanFollows(lines, 0, i, path[0], path[1], d);
      forall j | 0 <= j < |path| - 2 ensures Follows(lines, path[1..][j], path[1..][j + 1]) {
        assert Follows(lines, path[j + 1], path[j + 2]);
      }
      ChainCosts(lines, path[1..], d - 1);
    }
  }

  lemma {:induction false} LoopIsEndless(lines: seq<string>, loop: seq<string>, d: nat)
    requires |loop| > 1 && FollowedChain(lines, loop) && loop[0] == loop[|loop| - 1]
    ensures Read(lines, loop[0], d) == Deep
    decreases d
  {
    hide Read, FollowedChain;
    if Read(lines, loop[0], d) != Deep {
      ChainCosts(lines, loop, d);
      LoopIsEndless(lines, loop, d - (|loop| - 1));
    }
  }

  lemma OnlyReferencesAreDeep(lines: seq<string>, line: string, d: nat)
    requires d > 0 && Resolve(lines, line, d) == Deep
    ensures Content(line) != "" && Content(line) == "$" + Content(line)[1..]
    ensures Read(lines, Content(line)[1..], d - 1) == Deep
  {
    hide Content, Read;
    var content := Content(line);
    assert content == [content[0]] + content[1..];
  }

  lemma {:induction false} ScanGetsStuck(lines: seq<string>, k: nat, p: string) returns (i: nat, q: string)
    requires k <= |lines| && Scan(lines, k, p, |lines| + 2) == Deep
    requires forall j :: 0 <= j < k && Matches(lines[j], p) ==> Resolve(lines, lines[j], |lines| + 2) == Missing
    ensures FollowsAt(lines, i, p, q) && Read(lines, q, |lines| + 1) == Deep
    decreases |lines| - k
  {
    hide Matches, Content, Resolve, Read;
    if Matches(lines[k], p) && Resolve(lines, lines[k], |lines| + 2) == Deep {
      OnlyReferencesAreDeep(lines, lines[k], |lines| + 2);
      i, q := k, Content(lines[k])[1..];
    } else {
      i, q := ScanGetsStuck(lines, k + 1, p);
    }
  }

  lemma NextEndless(lines: seq<string>, p: string) returns (q: string)
    requires Read(lines, p, |lines| + 1) == Deep
    ensures Follows(lines, p, q) && q in Targets(lines) && Read(lines, q, |lines| + 1) == Deep
  {
    hide Targets, Content, Matches;
    TerminatesIffShallow(lines, p);
    assert Read(lines, p, |lines| + 2) == Deep;
    var i: nat;
    i, q := ScanGetsStuck(lines, 0, p);
    TargetThere(lines, lines[i]);
    assert Content(lines[i])[1..] == q;
  }

  /** An endless lookup follows references for as long as one likes. */
  lemma {:induction false} EndlessChain(lines: seq<string>, p: string, n: nat) returns (path: seq<string>)
    requires Read(lines, p, |lines| + 1) == Deep
    ensures |path| == n + 1 && path[0] == p && FollowedChain(lines, path)
    ensures forall j :: 1 <= j <= n ==> path[j] in Targets(lines)
    decreases n
  {
    hide Read, Targets, Follows;
    if n == 0 {
      path := [p];
    } else {
      var q := NextEndless(lines, p);
      var rest := EndlessChain(lines, q, n - 1);
      path := [p] + rest;
    }
  }

  lemma LongChainRepeats(lines: seq<string>, path: seq<string>)
    requires |path| == |lines| + 2 && forall j :: 1 <= j < |path| ==> path[j] in Targets(lines)
    ensures Repeats(path)
  {
    if !Repeats(path) {
      DistinctSize(path[1..]);
      TargetsAreFew(lines);
      SubsetSize(Elements(path[1..]), Targets(lines));
      assert false;
    }
  }

  /** The references that the lookup of a property follows come back to one of them. */
  ghost predicate ComesBack(lines: seq<string>, property: string) {
    exists path: seq<string> :: |path| > 0 && path[0] == property && FollowedChain(lines, path) && Repeats(path)
  }

  /** The lookup does not end, however deep its calls may nest. */
  ghost predicate Endless(lines: seq<string>, property: string) {
    forall d: nat :: Read(lines, property, d) == Deep
  }

  /** A lookup never ends exactly when the references it follows come back to one of them. */
  lemma EndlessIff(lines: seq<string>, property: string)
    ensures Endless(lines, property) <==> ComesBack(lines, property)
  {
    hide FollowedChain, Repeats;
    if Endless(lines, property) {
      assert Read(lines, property, |lines| + 1) == Deep;
      var path := EndlessChain(lines, property, |lines| + 1);
      LongChainRepeats(lines, path);
      assert ComesBack(lines, property);
    }
    if ComesBack(lines, property) {
      var path: seq<string> :| |path| > 0 && path[0] == property && FollowedChain(lines, path) && Repeats(path);
      forall d: nat ensures Read(lines, property, d) == Deep {
        RepeatIsEndless(lines, path, d);
      }
    }
  }

  lemma RepeatIsEndless(lines: seq<string>, path: seq<string>, d: nat)
    requires |path| > 0 && FollowedChain(lines, path) && Repeats(path)
    ensures Read(lines, path[0], d) == Deep
  {
    hide Read, Follows;
    var i, j :| 0 <= i < j < |path| && path[i] == path[j];
    var loop := path[i..j + 1];
    if Read(lines, path[0], d) != Deep {
      ChainCosts(lines, path[..i + 1], d);
      LoopIsEndless(lines, loop, d - i);
    }
  }

  // ---- What a lookup returns ----

  /** Line `j` is the first matching line that resolves; the matching lines before it do not. */
  ghost predicate FirstResolving(lines: seq<string>, i: nat, j: nat, property: string, depth: nat)
    requires depth > 0
  {
    && i <= j < |lines| && Matches(lines[j], property) && Resolve(lines, lines[j], depth).Found?
    && forall k :: i <= k < j && Matches(lines[k], property) ==> Resolve(lines, lines[k], depth) == Missing
  }

  lemma {:induction false} ScanFindsFirst(lines: seq<string>, i: nat, property: string, depth: nat)
    requires i <= |lines| && depth > 0 && Scan(lines, i, property, depth) != Deep
    ensures forall j: nat :: FirstResolving(lines, i, j, property, depth) ==>
      Scan(lines, i, property, depth) == Resolve(lines, lines[j], depth)
    ensures Scan(lines, i, property, depth).Found? ==> exists j: nat :: FirstResolving(lines, i, j, property, depth)
    decreases |lines| - i
  {
    if i < |lines| {
      if !Matches(lines[i], property) || Resolve(lines, lines[i], depth) == Missing {
        ScanFindsFirst(lines, i + 1, property, depth);
        forall j: nat | FirstResolving(lines, i, j, property, depth)
          ensures FirstResolving(lines, i + 1, j, property, depth)
        {}
        if Scan(lines, i, property, depth).Found? {
          var j: nat :| FirstResolving(lines, i + 1, j, property, depth);
          assert FirstResolving(lines, i, j, property, depth);
        }
      } else {
        assert FirstResolving(lines, i, i, property, depth);
      }
    }
  }

  /** A terminating lookup returns the resolution of the first matching line that resolves; if there is none, the
      property is missing. */
  lemma ReadsTheFirstThatResolves(lines: seq<string>, property: string, depth: nat)
    requires Read(lines, property, depth) != Deep
    ensures depth > 0
    ensures Read(lines, property, depth).Found? <==> exists j: nat :: FirstResolving(lines, 0, j, property, depth)
    ensures forall j: nat :: FirstResolving(lines, 0, j, property, depth) ==>
      Read(lines, property, depth) == Resolve(lines, lines[j], depth)
  {
    ScanFindsFirst(lines, 0, property, depth);
  }

  /** No lookup returns a reference. */
  lemma {:induction false} NeverReturnsAReference(lines: seq<string>, property: string, depth: nat)
    requires Read(lines, property, depth).Found?
    ensures !IsReference(Read(lines, property, depth).value)
    decreases depth
  {
    ReadsTheFirstThatResolves(lines, property, depth);
    var j: nat :| FirstResolving(lines, 0, j, property, depth);
    var content := Content(lines[j]);
    if IsReference(content) {
      NeverReturnsAReference(lines, content[1..], depth - 1);
    }
  }

  // ---- The procedure itself ----

  /** The recursive procedure on a file that can be opened, or not. The ghost depth is any bound on the nesting; by
      `AcyclicTerminates`, one more than the number of lines will do when the references are acyclic. */
  method ReadPropertyFromFile(file: seq<string>, opens: bool, property: string, ghost depth: nat)
    returns (found: bool, propertyValue: string)
    requires Read(file, property, depth) != Deep
    ensures found <==> opens && Read(file, property, depth).Found?
    ensures propertyValue == if found then Read(file, property, depth).value else ""
    decreases depth
  {
    found := false;
    propertyValue := "";
    if opens {
      var i := 0;
      while i < |file|
        invariant 0 <= i <= |file| && !found && propertyValue == ""
        invariant depth > 0 && Scan(file, i, property, depth) == Read(file, property, depth)
      {
        var line := file[i];
        i := i + 1;
        if line != "" && line[0] == '#' {
          continue;
        }
        if property + " " <= line || property + "=" <= line {
          var propertyContent := line[FirstIndex(line, '=') + 1..];
          if propertyContent != "" && propertyContent[0] == '$' {
            var expandedProperty := propertyContent[1..];
            found, propertyValue := ReadPropertyFromFile(file, opens, expandedProperty, depth - 1);
            if found {
              break;
            }
          } else {
            propertyValue := propertyContent;
            if propertyValue != "" {
              if propertyValue[|propertyValue| - 1] == '\r' || propertyValue[|propertyValue| - 1] == '\n' {
                propertyValue := propertyValue[..|propertyValue| - 1];
              }
            }
            found := true;
            break;
          }
        }
      }
    }
  }
}
