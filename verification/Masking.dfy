/** Finding sensitive values in page text before a screenshot: the whitespace rules of a snapshot with
    offsets back into the raw text, the search for values, and the text nodes a match covers. */
module Masking {
  import opened Json

  /** White space and line terminators as regular expressions and trimming understand them. */
  predicate IsSpace(c: char) {
    || c == ' ' || c == '\t' || c == '\n' || c == '\r' || c == '\U{000B}' || c == '\U{000C}' || c == '\U{00A0}'
    || c == '\U{1680}' || '\U{2000}' <= c <= '\U{200A}' || c == '\U{2028}' || c == '\U{2029}' || c == '\U{202F}'
    || c == '\U{205F}' || c == '\U{3000}' || c == '\U{FEFF}'
  }

  predicate AllSpace(s: string) {
    forall i :: 0 <= i < |s| ==> IsSpace(s[i])
  }

  /** Length of the white space that `s` starts with. */
  function Run(s: string): (n: nat)
    ensures n <= |s| && AllSpace(s[..n]) && (n < |s| ==> !IsSpace(s[n]))
    ensures s != "" && IsSpace(s[0]) ==> n > 0
  {
    if s == "" || !IsSpace(s[0]) then 0
    else
      var n := Run(s[1..]);
      assert forall i :: 0 < i < n + 1 ==> s[i] == s[1..][..n][i - 1];
      n + 1
  }

  /** Every maximal run of white space becomes one space. */
  function Collapse(s: string): string {
    if s == "" then ""
    else if IsSpace(s[0]) then " " + Collapse(s[Run(s)..])
    else [s[0]] + Collapse(s[1..])
  }

  function TrimStart(s: string): string {
    if s != "" && IsSpace(s[0]) then TrimStart(s[1..]) else s
  }

  function TrimEnd(s: string): string {
    if s != "" && IsSpace(s[|s| - 1]) then TrimEnd(s[..|s| - 1]) else s
  }

  function Trim(s: string): string {
    TrimEnd(TrimStart(s))
  }

  lemma {:induction false} RunIs(s: string, n: nat)
    requires n <= |s| && AllSpace(s[..n]) && (n < |s| ==> !IsSpace(s[n]))
    ensures Run(s) == n
    decreases |s|
  {
    hide IsSpace;
    if n > 0 {
      assert s[..n][0] == s[0] && s[1..][..n - 1] == s[..n][1..];
      RunIs(s[1..], n - 1);
    }
  }

  lemma CollapseSpaces(a: string, b: string)
    requires a != "" && AllSpace(a) && (b != "" ==> !IsSpace(b[0]))
    ensures Collapse(a + b) == " " + Collapse(b)
  {
    hide IsSpace;
    assert (a + b)[..|a|] == a;
    RunIs(a + b, |a|);
    assert (a + b)[0] == a[0] && (a + b)[|a|..] == b;
  }

  lemma CollapseAfterSpaces(head: string, rest: string, b: string)
    requires head != "" && AllSpace(head) && (rest != "" ==> !IsSpace(rest[0])) && (rest == "" && b != "" ==> !IsSpace(b[0]))
    requires Collapse(rest + b) == Collapse(rest) + Collapse(b)
    ensures Collapse(head + rest + b) == Collapse(head + rest) + Collapse(b)
  {
    hide IsSpace, Collapse, AllSpace;
    assert head + rest + b == head + (rest + b);
    CollapseSpaces(head, rest + b);
    CollapseSpaces(head, rest);
  }

  /** Collapsing splits wherever white space does not continue across the cut. */
  lemma {:induction false} CollapseConcat(a: string, b: string)
    requires a != "" && b != "" ==> !IsSpace(a[|a| - 1]) || !IsSpace(b[0])
    ensures Collapse(a + b) == Collapse(a) + Collapse(b)
    decreases |a|
  {
    hide IsSpace;
    if a == "" {
      assert a + b == b;
    } else if IsSpace(a[0]) {
      var n := Run(a);
      assert a[..n][n - 1] == a[n - 1];
      CollapseConcat(a[n..], b);
      CollapseAfterSpaces(a[..n], a[n..], b);
      assert a[..n] + a[n..] == a;
    } else {
      assert (a + b)[1..] == a[1..] + b;
      CollapseConcat(a[1..], b);
    }
  }

  // ----- offsets

  /** The part of the source that one character of the normalized text stands for: a single character
      of its own, or a maximal run of white space. */
  predicate Chunk(source: string, c: char, start: nat, end: nat)
    requires end <= |source|
  {
    && start < end
    && if c == ' ' then
         && AllSpace(source[start..end])
         && (start > 0 ==> !IsSpace(source[start - 1]))
         && (end < |source| ==> !IsSpace(source[end]))
       else end == start + 1 && source[start] == c && !IsSpace(c)
  }

  predicate ChunkAt(source: string, text: string, starts: seq<nat>, ends: seq<nat>, k: nat)
    requires k < |text| && k < |starts| && k < |ends|
  {
    ends[k] <= |source| && Chunk(source, text[k], starts[k], ends[k])
  }

  predicate Follows(starts: seq<nat>, ends: seq<nat>, k: nat)
    requires 0 < k < |starts| && k <= |ends|
  {
    starts[k] == ends[k - 1]
  }

  /** Every character has its chunk, and chunks follow one another without gaps. */
  predicate Mapped(source: string, text: string, starts: seq<nat>, ends: seq<nat>) {
    && |starts| == |ends| == |text|
    && (forall k :: 0 <= k < |text| ==> ChunkAt(source, text, starts, ends, k))
    && (forall k :: 0 < k < |text| ==> Follows(starts, ends, k))
  }

  lemma CollapseChunk(source: string, c: char, start: nat, end: nat)
    requires end <= |source| && Chunk(source, c, start, end)
    ensures Collapse(source[start..end]) == [c]
  {
  }

  /** The offsets invert normalization: the raw text between them collapses to the very range. */
  lemma {:induction false} OffsetsInvert(source: string, text: string, starts: seq<nat>, ends: seq<nat>, s: nat, e: nat)
    requires Mapped(source, text, starts, ends) && s < e <= |text|
    ensures starts[s] <= starts[e - 1] < ends[e - 1] <= |source|
    ensures Collapse(source[starts[s]..ends[e - 1]]) == text[s..e]
    decreases e
  {
    hide IsSpace, Collapse;
    var last := e - 1;
    assert ChunkAt(source, text, starts, ends, last);
    CollapseChunk(source, text[last], starts[last], ends[last]);
    if s < last {
      assert ChunkAt(source, text, starts, ends, last - 1) && Follows(starts, ends, last);
      OffsetsInvert(source, text, starts, ends, s, last);
      CollapseJoin(source, starts[s], starts[last], ends[last], text[last - 1], starts[last - 1], text[last]);
      assert text[s..e] == text[s..last] + [text[last]];
    } else {
      assert text[s..e] == [text[last]];
    }
  }

  /** Two neighbouring chunks never both stand for white space. */
  lemma CollapseJoin(source: string, from: nat, cut: nat, end: nat, before: char, start: nat, after: char)
    requires from <= start < cut < end <= |source| && Chunk(source, before, start, cut) && Chunk(source, after, cut, end)
    ensures Collapse(source[from..end]) == Collapse(source[from..cut]) + Collapse(source[cut..end])
  {
    hide IsSpace, Collapse;
    var a, b := source[from..cut], source[cut..end];
    assert source[from..end] == a + b && a[|a| - 1] == source[cut - 1] && b[0] == source[cut];
    CollapseConcat(a, b);
  }

  lemma {:induction false} TrimEndOfSolid(s: string, tail: string)
    requires AllSpace(tail) && s != "" && !IsSpace(s[|s| - 1])
    ensures TrimEnd(s + tail) == s
    decreases |tail|
  {
    hide IsSpace;
    if tail == "" {
      assert s + tail == s;
    } else {
      assert (s + tail)[|s + tail| - 1] == tail[|tail| - 1] && (s + tail)[..|s + tail| - 1] == s + tail[..|tail| - 1];
      TrimEndOfSolid(s, tail[..|tail| - 1]);
    }
  }

  /** Collapsing and trimming keeps what lies between the outermost solid characters. */
  lemma TrimOfCollapse(lead: string, core: string, tail: string)
    requires AllSpace(lead) && AllSpace(tail)
    requires core != "" && !IsSpace(core[0]) && !IsSpace(core[|core| - 1])
    ensures Trim(Collapse(lead + (core + tail))) == Collapse(core)
  {
    var rest := core + tail;
    assert rest[0] == core[0];
    hide *;
    CollapseConcat(core, tail);
    LastOfCollapse(core);
    TailCollapses(tail);
    TrimStartOfCollapse(lead, rest);
    TrimEndOfSolid(Collapse(core), Collapse(tail));
    TrimBoth(Collapse(lead + rest));
  }

  lemma TrimBoth(s: string)
    ensures Trim(s) == TrimEnd(TrimStart(s))
  {
  }

  lemma TailCollapses(tail: string)
    requires AllSpace(tail)
    ensures AllSpace(Collapse(tail))
  {
  }

  lemma TrimStartOfCollapse(lead: string, rest: string)
    requires AllSpace(lead) && rest != "" && !IsSpace(rest[0])
    ensures TrimStart(Collapse(lead + rest)) == Collapse(rest)
  {
    assert IsSpace(' ');
    hide IsSpace;
    assert Collapse(rest)[0] == rest[0];
    if lead == "" {
      assert lead + rest == rest;
    } else {
      CollapseSpaces(lead, rest);
      assert (" " + Collapse(rest))[1..] == Collapse(rest);
    }
  }

  lemma {:induction false} LastOfCollapse(s: string)
    requires s != "" && !IsSpace(s[|s| - 1])
    ensures Collapse(s) != "" && Collapse(s)[|Collapse(s)| - 1] == s[|s| - 1]
  {
    hide IsSpace;
    assert s == s[..|s| - 1] + [s[|s| - 1]];
    CollapseConcat(s[..|s| - 1], [s[|s| - 1]]);
    assert [s[|s| - 1]][1..] == "";
  }

  lemma AllSpaceTrims(source: string)
    requires AllSpace(source)
    ensures Trim(Collapse(source)) == ""
  {
  }

  lemma MappedAppend(source: string, text: string, starts: seq<nat>, ends: seq<nat>, c: char, start: nat, end: nat)
    requires Mapped(source, text, starts, ends) && end <= |source| && Chunk(source, c, start, end)
    requires text != "" ==> ends[|ends| - 1] == start
    ensures Mapped(source, text + [c], starts + [start], ends + [end])
  {
    hide Chunk;
    forall k | 0 <= k < |text|
      ensures ChunkAt(source, text + [c], starts + [start], ends + [end], k)
      ensures k > 0 ==> Follows(starts + [start], ends + [end], k)
    {
      assert ChunkAt(source, text, starts, ends, k) && (k > 0 ==> Follows(starts, ends, k));
    }
  }

  /** What has been skipped or mapped once the walk stands at `index`. */
  predicate Walked(source: string, text: string, starts: seq<nat>, ends: seq<nat>, index: nat)
    requires |text| == |starts| == |ends| && index <= |source|
  {
    && (text == "" ==> AllSpace(source[..index]))
    && (text != "" ==>
          && starts[0] < |source| && AllSpace(source[..starts[0]]) && !IsSpace(text[0])
          && (ends[|ends| - 1] == index ||
              (ends[|ends| - 1] < index == |source| && AllSpace(source[ends[|ends| - 1]..]) && !IsSpace(text[|text| - 1]))))
    && (text != "" && text[|text| - 1] == ' ' ==> index < |source|)
    && (0 < index < |source| && IsSpace(source[index - 1]) ==> !IsSpace(source[index]))
  }

  method NormalizedText(source: string) returns (text: string, starts: seq<nat>, ends: seq<nat>)
    ensures text == Trim(Collapse(source))
    ensures Mapped(source, text, starts, ends)
  {
    text, starts, ends := "", [], [];
    var index := 0;
    while index < |source|
      invariant index <= |source|
      invariant Mapped(source, text, starts, ends) && Walked(source, text, starts, ends, index)
    {
      var whitespace := IsSpace(source[index]);
      var end := index + if whitespace then Run(source[index..]) else 1;
      NextChunk(source, index);
      if whitespace && (text == "" || end == |source|) {
        if text != "" { assert ChunkAt(source, text, starts, ends, |text| - 1); }
        assert source[..end] == source[..index] + source[index..end];
        assert end == |source| ==> source[index..] == source[index..end];
        index := end;
        continue;
      }
      var c := if whitespace then ' ' else source[index];
      MappedAppend(source, text, starts, ends, c, index, end);
      text, starts, ends := text + [c], starts + [index], ends + [end];
      index := end;
    }
    if text == "" {
      assert source[..index] == source;
      AllSpaceTrims(source);
    } else {
      MappedIsNormal(source, text, starts, ends);
    }
  }

  lemma NextChunk(source: string, index: nat)
    requires index < |source| && (index > 0 && IsSpace(source[index - 1]) ==> !IsSpace(source[index]))
    ensures var whitespace := IsSpace(source[index]);
            var end := index + if whitespace then Run(source[index..]) else 1;
            && index < end <= |source| && Chunk(source, if whitespace then ' ' else source[index], index, end)
            && (whitespace ==> AllSpace(source[index..end]))
            && (end < |source| && IsSpace(source[end - 1]) ==> !IsSpace(source[end]))
  {
    assert IsSpace(' ');
    hide IsSpace;
    if IsSpace(source[index]) {
      var n := Run(source[index..]);
      assert source[index..][..n] == source[index..index + n];
    }
  }

  lemma OutermostAreSolid(source: string, text: string, starts: seq<nat>, ends: seq<nat>)
    requires Mapped(source, text, starts, ends) && text != "" && Walked(source, text, starts, ends, |source|)
    ensures var a, b := starts[0], ends[|text| - 1];
            && a < |source| && 0 < b <= |source| && AllSpace(source[..a]) && AllSpace(source[b..])
            && !IsSpace(source[a]) && !IsSpace(source[b - 1])
  {
    var last := |text| - 1;
    assert IsSpace(' ') && text[0] != ' ' && text[last] != ' ';
    hide IsSpace;
    assert ChunkAt(source, text, starts, ends, 0) && ChunkAt(source, text, starts, ends, last);
    assert ends[last] == |source| ==> source[ends[last]..] == "";
  }

  lemma MappedIsNormal(source: string, text: string, starts: seq<nat>, ends: seq<nat>)
    requires |starts| == |ends| == |text|
    requires Mapped(source, text, starts, ends) && text != "" && Walked(source, text, starts, ends, |source|)
    ensures text == Trim(Collapse(source))
  {
    hide *;
    OutermostAreSolid(source, text, starts, ends);
    OffsetsInvert(source, text, starts, ends, 0, |text|);
    Outside(source, starts[0], ends[|text| - 1]);
    assert text[0..|text|] == text;
  }

  lemma Outside(source: string, a: nat, b: nat)
    requires a < b <= |source| && AllSpace(source[..a]) && AllSpace(source[b..])
    requires !IsSpace(source[a]) && !IsSpace(source[b - 1])
    ensures Trim(Collapse(source)) == Collapse(source[a..b])
  {
    var core := source[a..b];
    assert core[0] == source[a] && core[|core| - 1] == source[b - 1];
    assert source == source[..a] + source[a..];
    assert source[a..] == core + source[b..];
    hide *;
    TrimOfCollapse(source[..a], core, source[b..]);
  }

  // ----- the search for values

  predicate OccursAt(text: string, value: string, i: int) {
    0 <= i <= |text| - |value| && text[i..i + |value|] == value
  }

  ghost predicate Occurs(text: string, value: string) {
    exists i :: OccursAt(text, value, i)
  }

  method IndexOf(text: string, value: string, start: nat) returns (found: Option<nat>)
    ensures found.Some? ==> found.value >= start && OccursAt(text, value, found.value)
    ensures found.Some? ==> forall i :: start <= i < found.value ==> !OccursAt(text, value, i)
    ensures found.None? ==> forall i :: start <= i ==> !OccursAt(text, value, i)
  {
    var i := start;
    while i + |value| <= |text|
      invariant start <= i
      invariant forall j :: start <= j < i ==> !OccursAt(text, value, j)
    {
      if OccursAt(text, value, i) { return Some(i); }
      i := i + 1;
    }
    return None;
  }

  datatype Match = Match(value: nat, start: nat, end: nat)

  /** Position `i` lies inside one of the matches. */
  ghost predicate Inside(found: seq<Match>, i: int) {
    exists k :: 0 <= k < |found| && found[k].start <= i < found[k].end
  }

  ghost predicate Disjoint(text: string, value: string, index: nat, found: seq<Match>) {
    && (forall k :: 0 <= k < |found| ==>
          found[k].value == index && found[k].end == found[k].start + |value| && OccursAt(text, value, found[k].start))
    && (forall j, k :: 0 <= j < k < |found| ==> found[j].end <= found[k].start)
  }

  /** The matches of one value: occurrences that do not overlap, in order, such that every occurrence
      begins inside one of them. */
  ghost predicate Covers(text: string, value: string, index: nat, found: seq<Match>) {
    Disjoint(text, value, index, found) && forall i :: OccursAt(text, value, i) ==> Inside(found, i)
  }

  lemma InsideMore(found: seq<Match>, hit: Match, i: int)
    ensures Inside(found + [hit], i) <==> Inside(found, i) || hit.start <= i < hit.end
  {
    var more := found + [hit];
    if Inside(found, i) {
      var k :| 0 <= k < |found| && found[k].start <= i < found[k].end;
      assert more[k] == found[k];
    }
    assert more[|found|] == hit;
  }

  /** All occurrences that begin before `start` are inside the matches, which end by then. */
  ghost predicate Scanned(text: string, value: string, index: nat, found: seq<Match>, start: nat) {
    && start <= |text| && Disjoint(text, value, index, found)
    && (forall k :: 0 <= k < |found| ==> found[k].end <= start)
    && (forall i :: i < start && OccursAt(text, value, i) ==> Inside(found, i))
  }

  lemma OneMatchMore(text: string, value: string, index: nat, found: seq<Match>, start: nat, next: nat)
    requires value != "" && Scanned(text, value, index, found, start) && OccursAt(text, value, next) && start <= next
    requires forall i :: start <= i < next ==> !OccursAt(text, value, i)
    ensures next + |value| <= |text|
    ensures Scanned(text, value, index, found + [Match(index, next, next + |value|)], next + |value|)
  {
    var hit := Match(index, next, next + |value|);
    assert hit.end <= |text|;
    hide OccursAt, Inside;
    forall i | i < hit.end && OccursAt(text, value, i)
      ensures Inside(found + [hit], i)
    {
      InsideMore(found, hit, i);
    }
  }

  lemma ScannedAll(text: string, value: string, index: nat, found: seq<Match>, start: nat)
    requires Scanned(text, value, index, found, start) && forall i :: start <= i ==> !OccursAt(text, value, i)
    ensures Covers(text, value, index, found) && (found != [] <==> Occurs(text, value))
  {
    assert found != [] ==> OccursAt(text, value, found[0].start);
    hide OccursAt;
  }

  method MatchesOf(text: string, value: string, index: nat) returns (found: seq<Match>)
    requires value != ""
    ensures Covers(text, value, index, found)
    ensures found != [] <==> Occurs(text, value)
  {
    found := [];
    var start := 0;
    assert Scanned(text, value, index, found, start);
    hide *;
    while true
      invariant start <= |text| && Scanned(text, value, index, found, start)
      decreases |text| - start
    {
      var next := IndexOf(text, value, start);
      if next.None? { break; }
      OneMatchMore(text, value, index, found, start, next.value);
      found, start := found + [Match(index, next.value, next.value + |value|)], next.value + |value|;
    }
    ScannedAll(text, value, index, found, start);
  }

  /** Every value's matches, empty values aside; `matched` are the values that occur at all. */
  method Matches(text: string, values: seq<string>) returns (matched: set<nat>, found: seq<seq<Match>>)
    ensures |found| == |values|
    ensures forall v :: 0 <= v < |values| && values[v] != "" ==> Covers(text, values[v], v, found[v])
    ensures forall v :: 0 <= v < |values| && values[v] == "" ==> found[v] == []
    ensures forall v :: v in matched <==> 0 <= v < |values| && values[v] != "" && Occurs(text, values[v])
  {
    hide Covers, Occurs, OccursAt;
    matched, found := {}, [];
    for v := 0 to |values|
      invariant |found| == v
      invariant forall u :: 0 <= u < v && values[u] != "" ==> Covers(text, values[u], u, found[u])
      invariant forall u :: 0 <= u < v && values[u] == "" ==> found[u] == []
      invariant forall u :: u in matched <==> 0 <= u < v && values[u] != "" && Occurs(text, values[u])
    {
      if values[v] == "" {
        found := found + [[]];
        continue;
      }
      var hits := MatchesOf(text, values[v], v);
      found := found + [hits];
      if hits != [] { matched := matched + {v}; }
    }
  }

  /** A match in a node's normalized text is masked over raw text that collapses to the value. */
  lemma MaskedRangeShowsTheValue(source: string, text: string, starts: seq<nat>, ends: seq<nat>, value: string, start: nat)
    requires Mapped(source, text, starts, ends) && value != "" && OccursAt(text, value, start)
    ensures starts[start] < ends[start + |value| - 1] <= |source|
    ensures Collapse(source[starts[start]..ends[start + |value| - 1]]) == value
  {
    OffsetsInvert(source, text, starts, ends, start, start + |value|);
  }

  // ----- matches across text nodes

  datatype Node = Node(content: string, start: nat, end: nat)

  predicate Holds(node: Node, p: nat) {
    node.start <= p < node.end
  }

  ghost predicate HasNode(nodes: seq<Node>, p: nat) {
    exists i :: 0 <= i < |nodes| && Holds(nodes[i], p)
  }

  predicate Piece(node: Node, text: string) {
    node.start <= node.end <= |text| && text[node.start..node.end] == node.content
  }

  /** The nodes are the text cut into consecutive pieces, some of them possibly empty. */
  ghost predicate Partitions(nodes: seq<Node>, text: string) {
    && (forall i :: 0 <= i < |nodes| ==> Piece(nodes[i], text))
    && (forall i, j :: 0 <= i < j < |nodes| ==> nodes[i].end <= nodes[j].start)
    && (forall p: nat :: p < |text| ==> HasNode(nodes, p))
  }

  lemma PartitionsMore(nodes: seq<Node>, text: string, content: string)
    requires Partitions(nodes, text)
    ensures Partitions(nodes + [Node(content, |text|, |text| + |content|)], text + content)
  {
    var last := Node(content, |text|, |text| + |content|);
    var more, longer := nodes + [last], text + content;
    forall i | 0 <= i < |more|
      ensures Piece(more[i], longer)
    {
      if i < |nodes| {
        assert Piece(nodes[i], text) && longer[nodes[i].start..nodes[i].end] == text[nodes[i].start..nodes[i].end];
      }
    }
    forall p: nat | p < |longer|
      ensures HasNode(more, p)
    {
      if p < |text| {
        assert HasNode(nodes, p);
        var i :| 0 <= i < |nodes| && Holds(nodes[i], p);
        assert Holds(more[i], p);
      } else {
        assert Holds(more[|nodes|], p);
      }
    }
    assert forall i :: 0 <= i < |nodes| ==> Piece(nodes[i], text) && more[i].end <= last.start;
  }

  method Concatenate(contents: seq<string>) returns (text: string, nodes: seq<Node>)
    ensures Partitions(nodes, text)
    ensures |nodes| == |contents| && forall i :: 0 <= i < |nodes| ==> nodes[i].content == contents[i]
  {
    text, nodes := "", [];
    for n := 0 to |contents|
      invariant |nodes| == n && Partitions(nodes, text)
      invariant forall i :: 0 <= i < n ==> nodes[i].content == contents[i]
    {
      PartitionsMore(nodes, text, contents[n]);
      var start := |text|;
      text := text + contents[n];
      nodes := nodes + [Node(contents[n], start, |text|)];
    }
  }

  /** The node that contains position `p`: there is exactly one. */
  method Find(nodes: seq<Node>, text: string, p: nat) returns (index: nat)
    requires Partitions(nodes, text) && p < |text|
    ensures index < |nodes| && Holds(nodes[index], p)
    ensures forall i :: 0 <= i < |nodes| && Holds(nodes[i], p) ==> i == index
  {
    assert HasNode(nodes, p);
    ghost var target :| 0 <= target < |nodes| && Holds(nodes[target], p);
    index := 0;
    while !Holds(nodes[index], p)
      invariant index <= target
      invariant forall i :: 0 <= i < index ==> !Holds(nodes[i], p)
      decreases |nodes| - index
    {
      index := index + 1;
    }
  }

  /** Both ends of a match always have exactly one node, and between them the nodes hold exactly the
      matched text: the tail of the first, whole nodes, and the head of the last. */
  lemma MatchSpansNodes(nodes: seq<Node>, text: string, start: nat, end: nat, first: nat, last: nat)
    requires Partitions(nodes, text) && start < end <= |text|
    requires first < |nodes| && nodes[first].start <= start < nodes[first].end
    requires last < |nodes| && nodes[last].start < end <= nodes[last].end
    ensures first <= last
    ensures first == last ==> nodes[first].content[start - nodes[first].start..end - nodes[first].start] == text[start..end]
    ensures first < last ==>
              text[start..end] == nodes[first].content[start - nodes[first].start..] + text[nodes[first].end..nodes[last].start]
                                  + nodes[last].content[..end - nodes[last].start]
  {
  }
}
