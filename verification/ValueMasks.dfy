/** Replacing every rendering of a job's values in a text by the value's name, longest renderings
    first. Strings stand for their UTF-8 bytes, so lengths are byte lengths. */
module ValueMasks {
  import opened Json
  import opened Masking

  /** A value of the job with its optional alternative formats. */
  datatype JobValue = JobValue(name: string, value: string, iso: Option<string>, display: Option<string>, secret: bool)

  /** A rendering to look for and the name that replaces it. */
  datatype Rendering = Rendering(name: string, text: string)

  function Renderings(v: JobValue): seq<string> {
    [v.value] + (if v.iso.Some? then [v.iso.value] else []) + (if v.display.Some? then [v.display.value] else [])
  }

  function Named(name: string, texts: seq<string>): seq<Rendering> {
    if texts == [] then []
    else (if texts[0] != "" then [Rendering(name, texts[0])] else []) + Named(name, texts[1..])
  }

  /** The non-empty renderings of the included values, in order. */
  function Included(values: seq<JobValue>, included: JobValue -> bool): seq<Rendering> {
    if values == [] then []
    else
      (if included(values[0]) then Named(values[0].name, Renderings(values[0])) else []) + Included(values[1..], included)
  }

  // ----- longest first

  function Insert(r: Rendering, sorted: seq<Rendering>): seq<Rendering> {
    if sorted == [] || |r.text| >= |sorted[0].text| then [r] + sorted else [sorted[0]] + Insert(r, sorted[1..])
  }

  /** Stable: renderings of one length keep their order. */
  function Sorted(rs: seq<Rendering>): seq<Rendering> {
    if rs == [] then [] else Insert(rs[0], Sorted(rs[1..]))
  }

  predicate Descending(rs: seq<Rendering>) {
    forall i, j :: 0 <= i < j < |rs| ==> |rs[i].text| >= |rs[j].text|
  }

  lemma {:induction false} InsertKeeps(r: Rendering, sorted: seq<Rendering>)
    requires Descending(sorted)
    ensures Descending(Insert(r, sorted)) && multiset(Insert(r, sorted)) == multiset(sorted) + multiset{r}
  {
    if sorted != [] && |r.text| < |sorted[0].text| {
      InsertKeeps(r, sorted[1..]);
      var first, rest := sorted[0], Insert(r, sorted[1..]);
      assert sorted == [first] + sorted[1..];
      AtMost(r, sorted[1..], rest, |first.text|);
      hide Insert;
      assert Descending([first] + rest);
    }
  }

  lemma AtMost(r: Rendering, sorted: seq<Rendering>, all: seq<Rendering>, most: nat)
    requires multiset(all) == multiset(sorted) + multiset{r} && |r.text| <= most
    requires forall i :: 0 <= i < |sorted| ==> |sorted[i].text| <= most
    ensures forall i :: 0 <= i < |all| ==> |all[i].text| <= most
  {
    forall i | 0 <= i < |all|
      ensures |all[i].text| <= most
    {
      assert all[i] in multiset(all);
      assert all[i] in multiset(sorted) ==> all[i] in sorted;
    }
  }

  lemma {:induction false} SortedIsDescending(rs: seq<Rendering>)
    ensures Descending(Sorted(rs)) && multiset(Sorted(rs)) == multiset(rs)
  {
    if rs != [] {
      SortedIsDescending(rs[1..]);
      InsertKeeps(rs[0], Sorted(rs[1..]));
      assert rs == [rs[0]] + rs[1..];
    }
  }

  // ----- replacing one rendering

  function FirstFrom(text: string, r: string, from: nat): (i: Option<nat>)
    ensures i.Some? ==> from <= i.value && OccursAt(text, r, i.value) && forall j :: from <= j < i.value ==> !OccursAt(text, r, j)
    ensures i.None? ==> forall j :: from <= j ==> !OccursAt(text, r, j)
    decreases |text| + 1 - from
  {
    if from + |r| > |text| then None else if OccursAt(text, r, from) then Some(from) else FirstFrom(text, r, from + 1)
  }

  function First(text: string, r: string): (i: Option<nat>)
    ensures i.Some? ==> OccursAt(text, r, i.value) && forall j :: 0 <= j < i.value ==> !OccursAt(text, r, j)
    ensures i.None? ==> forall j :: !OccursAt(text, r, j)
  {
    FirstFrom(text, r, 0)
  }

  /** Leftmost occurrences are replaced and the replacement is not searched again. */
  function Replace(text: string, r: string, token: string): string
    requires r != ""
    decreases |text|
  {
    var i := First(text, r);
    if i.None? then text else text[..i.value] + token + Replace(text[i.value + |r|..], r, token)
  }

  function Body(name: string): string {
    "value:" + name
  }

  function TokenOf(name: string): string {
    "<" + Body(name) + ">"
  }

  method ReplaceAll(text: string, r: string, token: string) returns (output: string)
    requires r != ""
    ensures output == Replace(text, r, token)
  {
    output := "";
    var rest := text;
    while true
      invariant output + Replace(rest, r, token) == Replace(text, r, token)
      decreases |rest|
    {
      var i := First(rest, r);
      if i.None? { break; }
      output := output + rest[..i.value] + token;
      rest := rest[i.value + |r|..];
    }
    output := output + rest;
  }

  function Apply(text: string, rs: seq<Rendering>): string
    requires NonEmpty(rs)
    decreases |rs|
  {
    if rs == [] then text else Apply(Replace(text, rs[0].text, TokenOf(rs[0].name)), rs[1..])
  }

  lemma {:induction false} NamedNonEmpty(name: string, texts: seq<string>)
    ensures forall r :: r in Named(name, texts) <==> r.name == name && r.text in texts && r.text != ""
  {
    if texts != [] {
      NamedNonEmpty(name, texts[1..]);
      assert texts == [texts[0]] + texts[1..];
    }
  }

  /** Exactly the non-empty renderings of the included values. */
  lemma {:induction false} IncludedExactly(values: seq<JobValue>, included: JobValue -> bool, r: Rendering)
    ensures r in Included(values, included) <==>
            exists k :: 0 <= k < |values| && included(values[k]) && r.name == values[k].name && r.text in Renderings(values[k]) && r.text != ""
  {
    if values != [] {
      IncludedExactly(values[1..], included, r);
      NamedNonEmpty(values[0].name, Renderings(values[0]));
      assert forall k :: 1 <= k < |values| ==> values[k] == values[1..][k - 1];
      assert forall k :: 0 <= k < |values| - 1 ==> values[1..][k] == values[k + 1];
    }
  }

  method MaskMatching(text: string, values: seq<JobValue>, included: JobValue -> bool) returns (output: string)
    ensures NonEmpty(Sorted(Included(values, included)))
    ensures output == Apply(text, Sorted(Included(values, included)))
  {
    var renderings := Sorted(Included(values, included));
    SortedIncluded(values, included);
    output := text;
    for k := 0 to |renderings|
      invariant Apply(output, renderings[k..]) == Apply(text, renderings)
    {
      assert renderings[k..][1..] == renderings[k + 1..];
      output := ReplaceAll(output, renderings[k].text, TokenOf(renderings[k].name));
    }
  }

  predicate NonEmpty(rs: seq<Rendering>) {
    forall k :: 0 <= k < |rs| ==> rs[k].text != ""
  }

  lemma SortedIncluded(values: seq<JobValue>, included: JobValue -> bool)
    ensures NonEmpty(Sorted(Included(values, included)))
    ensures forall r :: r in Sorted(Included(values, included)) <==> r in Included(values, included)
  {
    var rs, sorted := Included(values, included), Sorted(Included(values, included));
    SortedIsDescending(rs);
    assert forall r :: r in sorted <==> r in multiset(sorted);
    assert forall r :: r in rs <==> r in multiset(rs);
    forall k | 0 <= k < |sorted|
      ensures sorted[k].text != ""
    {
      assert sorted[k] in multiset(sorted) && sorted[k] in rs;
      IncludedExactly(values, included, sorted[k]);
    }
  }

  // ----- masked texts as documents

  /** A text with some ranges masked: plain text, then a masked range, then the rest. */
  datatype Doc = Plain(text: string) | Masked(text: string, mark: Rendering, rest: Doc)

  /** What the document shows. */
  function Shown(d: Doc): string {
    if d.Plain? then d.text else d.text + TokenOf(d.mark.name) + Shown(d.rest)
  }

  /** What the document stood for before masking. */
  function Original(d: Doc): string {
    if d.Plain? then d.text else d.text + d.mark.text + Original(d.rest)
  }

  /** Every masked range held a rendering of the list. */
  predicate MaskedBy(d: Doc, rs: seq<Rendering>) {
    d.Masked? ==> d.mark in rs && MaskedBy(d.rest, rs)
  }

  /** The plain text between the masks is free of `r`. */
  ghost predicate FreeOf(d: Doc, r: string) {
    !Occurs(d.text, r) && (d.Masked? ==> FreeOf(d.rest, r))
  }

  /** The range of `n` bytes at `i` meets a masked range of at least `least` bytes. */
  predicate Meets(d: Doc, i: int, n: nat, least: nat) {
    d.Masked? &&
    (|| (|d.mark.text| >= least && i < |d.text| + |d.mark.text| && i + n > |d.text|)
     || Meets(d.rest, i - |d.text| - |d.mark.text|, n, least))
  }

  function Append(d: Doc, mark: Rendering, rest: Doc): Doc {
    if d.Plain? then Masked(d.text, mark, rest) else Masked(d.text, d.mark, Append(d.rest, mark, rest))
  }

  /** Masks the occurrences of a rendering in plain text. */
  function Split(text: string, r: Rendering): Doc
    requires r.text != ""
    decreases |text|
  {
    var i := First(text, r.text);
    if i.None? then Plain(text) else Masked(text[..i.value], r, Split(text[i.value + |r.text|..], r))
  }

  /** One pass masks a rendering in all plain text and leaves masked ranges alone. */
  function Pass(d: Doc, r: Rendering): Doc
    requires r.text != ""
  {
    if d.Plain? then Split(d.text, r) else Append(Split(d.text, r), d.mark, Pass(d.rest, r))
  }

  function Passes(d: Doc, rs: seq<Rendering>): Doc
    requires NonEmpty(rs)
    decreases |rs|
  {
    if rs == [] then d else Passes(Pass(d, rs[0]), rs[1..])
  }

  lemma {:induction false} AppendShows(d: Doc, mark: Rendering, rest: Doc)
    ensures Shown(Append(d, mark, rest)) == Shown(d) + TokenOf(mark.name) + Shown(rest)
    ensures Original(Append(d, mark, rest)) == Original(d) + mark.text + Original(rest)
  {
    if d.Masked? {
      AppendShows(d.rest, mark, rest);
      assert Shown(Append(d, mark, rest)) == d.text + TokenOf(d.mark.name) + (Shown(d.rest) + TokenOf(mark.name) + Shown(rest));
      assert Original(Append(d, mark, rest)) == d.text + d.mark.text + (Original(d.rest) + mark.text + Original(rest));
    }
  }

  lemma {:induction false} SplitShows(text: string, r: Rendering)
    requires r.text != ""
    ensures Shown(Split(text, r)) == Replace(text, r.text, TokenOf(r.name))
    ensures Original(Split(text, r)) == text
    decreases |text|
  {
    var i := First(text, r.text);
    if i.Some? {
      var rest := text[i.value + |r.text|..];
      SplitShows(rest, r);
      hide First, TokenOf;
      assert text == text[..i.value] + r.text + rest;
    }
  }

  lemma SliceOfSlice(text: string, lo: nat, hi: nat, j: nat, k: nat)
    requires lo <= hi <= |text| && j <= k <= hi - lo
    ensures text[lo..hi][j..k] == text[lo + j..lo + k]
  {
    forall x | 0 <= x < k - j
      ensures text[lo..hi][j..k][x] == text[lo + j..lo + k][x]
    {
    }
  }

  lemma OccursInPart(text: string, r: string, lo: nat, hi: nat, j: int)
    requires lo <= hi <= |text| && OccursAt(text[lo..hi], r, j)
    ensures OccursAt(text, r, lo + j)
  {
    SliceOfSlice(text, lo, hi, j, j + |r|);
  }

  /** What precedes the first occurrence is free of it. */
  lemma BeforeFirst(text: string, r: string)
    requires r != "" && First(text, r).Some?
    ensures !Occurs(text[..First(text, r).value], r)
  {
    var i := First(text, r).value;
    assert text[..i] == text[0..i];
    forall j
      ensures !OccursAt(text[..i], r, j)
    {
      assert OccursAt(text[..i], r, j) ==> OccursAt(text, r, j) by {
        if OccursAt(text[..i], r, j) { OccursInPart(text, r, 0, i, j); }
      }
    }
  }

  lemma {:induction false} SplitIsFree(text: string, r: Rendering)
    requires r.text != ""
    ensures FreeOf(Split(text, r), r.text)
    decreases |text|
  {
    if First(text, r.text).Some? {
      BeforeFirst(text, r.text);
      SplitIsFree(text[First(text, r.text).value + |r.text|..], r);
      hide First, Occurs;
    }
  }

  /** Splitting plain text never brings back another rendering. */
  lemma {:induction false} SplitKeepsFree(text: string, r: Rendering, other: string)
    requires r.text != "" && !Occurs(text, other)
    ensures FreeOf(Split(text, r), other)
    decreases |text|
  {
    var i := First(text, r.text);
    if i.Some? {
      PartIsFree(text, other, 0, i.value);
      PartIsFree(text, other, i.value + |r.text|, |text|);
      assert text[0..i.value] == text[..i.value] && text[i.value + |r.text|..|text|] == text[i.value + |r.text|..];
      SplitKeepsFree(text[i.value + |r.text|..], r, other);
      hide First, Occurs;
    }
  }

  lemma PartIsFree(text: string, r: string, lo: nat, hi: nat)
    requires lo <= hi <= |text| && !Occurs(text, r)
    ensures !Occurs(text[lo..hi], r)
  {
    forall j
      ensures !OccursAt(text[lo..hi], r, j)
    {
      assert OccursAt(text[lo..hi], r, j) ==> OccursAt(text, r, lo + j) by {
        if OccursAt(text[lo..hi], r, j) { OccursInPart(text, r, lo, hi, j); }
      }
    }
  }

  lemma {:induction false} AppendFree(d: Doc, mark: Rendering, rest: Doc, r: string)
    ensures FreeOf(Append(d, mark, rest), r) <==> FreeOf(d, r) && FreeOf(rest, r)
  {
    if d.Masked? { AppendFree(d.rest, mark, rest, r); }
  }

  lemma {:induction false} PassOriginal(d: Doc, r: Rendering)
    requires r.text != ""
    ensures Original(Pass(d, r)) == Original(d)
  {
    SplitShows(d.text, r);
    if d.Masked? {
      PassOriginal(d.rest, r);
      AppendShows(Split(d.text, r), d.mark, Pass(d.rest, r));
    }
  }

  lemma {:induction false} PassFree(d: Doc, r: Rendering, other: string)
    requires r.text != "" && (other == r.text || FreeOf(d, other))
    ensures FreeOf(Pass(d, r), other)
  {
    if other == r.text { SplitIsFree(d.text, r); } else { SplitKeepsFree(d.text, r, other); }
    if d.Masked? {
      PassFree(d.rest, r, other);
      AppendFree(Split(d.text, r), d.mark, Pass(d.rest, r), other);
    }
  }

  lemma {:induction false} AppendMaskedBy(d: Doc, mark: Rendering, rest: Doc, rs: seq<Rendering>)
    ensures MaskedBy(Append(d, mark, rest), rs) <==> MaskedBy(d, rs) && mark in rs && MaskedBy(rest, rs)
  {
    if d.Masked? { AppendMaskedBy(d.rest, mark, rest, rs); }
  }

  lemma {:induction false} SplitMaskedBy(text: string, r: Rendering, rs: seq<Rendering>)
    requires r.text != "" && r in rs
    ensures MaskedBy(Split(text, r), rs)
    decreases |text|
  {
    if First(text, r.text).Some? { SplitMaskedBy(text[First(text, r.text).value + |r.text|..], r, rs); }
  }

  lemma {:induction false} PassMaskedBy(d: Doc, r: Rendering, rs: seq<Rendering>)
    requires r.text != "" && r in rs && MaskedBy(d, rs)
    ensures MaskedBy(Pass(d, r), rs)
  {
    SplitMaskedBy(d.text, r, rs);
    if d.Masked? {
      PassMaskedBy(d.rest, r, rs);
      AppendMaskedBy(Split(d.text, r), d.mark, Pass(d.rest, r), rs);
    }
  }

  // ----- masks do not interfere

  /** A rendering that cannot be mistaken for a part of any of the tokens. */
  ghost predicate Safe(r: string, rs: seq<Rendering>) {
    && r != "" && '<' !in r && '>' !in r
    && forall k :: 0 <= k < |rs| ==> !Occurs(Body(rs[k].name), r)
  }

  /** Where an occurrence can lie in three joined texts, when it does not touch the middle one. */
  lemma OccursInJoined(a: string, m: string, b: string, r: string, i: int)
    requires r != "" && (i + |r| <= |a| || i >= |a| + |m|)
    ensures i + |r| <= |a| ==> (OccursAt(a + m + b, r, i) <==> OccursAt(a, r, i)) && !OccursAt(b, r, i - |a| - |m|)
    ensures i >= |a| + |m| ==> (OccursAt(a + m + b, r, i) <==> OccursAt(b, r, i - |a| - |m|)) && !OccursAt(a, r, i)
  {
  }

  /** No occurrence of a text without brackets covers a bracket. */
  lemma OccursBesideBracket(whole: string, r: string, i: int, k: nat)
    requires OccursAt(whole, r, i) && k < |whole| && whole[k] !in r
    ensures k < i || i + |r| <= k
  {
  }

  /** Around a bracket, a rendering without it occurs only wholly before or wholly after. */
  lemma OccursAroundBracket(a: string, c: char, b: string, r: string, i: int)
    requires r != "" && c !in r
    ensures OccursAt(a + [c] + b, r, i) <==> OccursAt(a, r, i) || OccursAt(b, r, i - |a| - 1)
  {
    var whole := a + [c] + b;
    if i + |r| <= |a| || i > |a| {
      OccursInJoined(a, [c], b, r, i);
    } else if OccursAt(whole, r, i) {
      assert whole[|a|] == c;
      OccursBesideBracket(whole, r, i, |a|);
    }
  }

  lemma FirstAroundBracket(a: string, c: char, b: string, r: string)
    requires r != "" && c !in r
    ensures First(a + [c] + b, r) ==
            if First(a, r).Some? then First(a, r)
            else if First(b, r).Some? then Some(|a| + 1 + First(b, r).value)
            else None
  {
    var whole, shift := a + [c] + b, |a| + 1;
    forall i
      ensures OccursAt(whole, r, i) <==> OccursAt(a, r, i) || OccursAt(b, r, i - shift)
    {
      OccursAroundBracket(a, c, b, r, i);
    }
    hide First, FirstFrom;
    if First(a, r).Some? {
      FirstIs(whole, r, First(a, r).value);
    } else if First(b, r).Some? {
      assert OccursAt(b, r, shift + First(b, r).value - shift);
      FirstIs(whole, r, shift + First(b, r).value);
    } else {
      FirstIsNone(whole, r);
    }
  }

  /** So replacing works on both sides separately. */
  lemma {:induction false} ReplaceAroundBracket(a: string, c: char, b: string, r: string, token: string)
    requires r != "" && c !in r
    ensures Replace(a + [c] + b, r, token) == Replace(a, r, token) + [c] + Replace(b, r, token)
    decreases |a|
  {
    FirstAroundBracket(a, c, b, r);
    if First(a, r).Some? {
      var i := First(a, r).value;
      ReplaceAroundBracket(a[i + |r|..], c, b, r, token);
      ReplaceBefore(a, [c], b, r, token, i);
    } else if First(b, r).Some? {
      ReplaceBehind(a, [c], b, r, token, First(b, r).value);
    }
  }

  lemma TokenParts(a: string, name: string, b: string)
    ensures a + TokenOf(name) + b == a + ['<'] + (Body(name) + ['>'] + b)
  {
  }

  /** Around a token, a rendering that is no part of it occurs only wholly before or wholly after. */
  lemma OccursAroundToken(a: string, name: string, b: string, r: string, i: int)
    requires r != "" && '<' !in r && '>' !in r && !Occurs(Body(name), r)
    ensures OccursAt(a + TokenOf(name) + b, r, i) <==>
            OccursAt(a, r, i) || OccursAt(b, r, i - |a| - |TokenOf(name)|)
  {
    var body := Body(name);
    TokenParts(a, name, b);
    OccursAroundBracket(a, '<', body + ['>'] + b, r, i);
    OccursAroundBracket(body, '>', b, r, i - |a| - 1);
    assert i - |a| - 1 - |body| - 1 == i - |a| - |TokenOf(name)|;
  }

  /** A later pass leaves the token alone. */
  lemma ReplaceAroundToken(a: string, name: string, b: string, r: string, token: string)
    requires r != "" && '<' !in r && '>' !in r && !Occurs(Body(name), r)
    ensures Replace(a + TokenOf(name) + b, r, token) == Replace(a, r, token) + TokenOf(name) + Replace(b, r, token)
  {
    TokenParts(a, name, b);
    TokenParts(Replace(a, r, token), name, Replace(b, r, token));
    ReplaceAroundBracket(a, '<', Body(name) + ['>'] + b, r, token);
    ReplaceAroundBracket(Body(name), '>', b, r, token);
    FirstIsNone(Body(name), r);
    ReplaceFirst(Body(name), r, token);
  }

  lemma GlueFirst(a: string, t: string, b: string, i: nat, k: nat, token: string, ra: string, rb: string)
    requires i <= k <= |a|
    ensures (a + t + b)[..i] + token + (ra + t + rb) == a[..i] + token + ra + t + rb
  {
  }

  lemma GlueLast(a: string, t: string, b: string, j: nat, k: nat, token: string, rb: string)
    requires j <= k <= |b|
    ensures (a + t + b)[..|a| + |t| + j] + token + rb == a + t + (b[..j] + token + rb)
  {
  }

  lemma ReplaceAt(text: string, r: string, token: string, i: nat)
    requires r != "" && First(text, r) == Some(i) && i + |r| <= |text|
    ensures Replace(text, r, token) == text[..i] + token + Replace(text[i + |r|..], r, token)
  {
    hide *;
    ReplaceFirst(text, r, token);
  }

  lemma ReplaceBefore(a: string, t: string, b: string, r: string, token: string, i: nat)
    requires r != "" && First(a, r) == Some(i) && First(a + t + b, r) == Some(i) && i + |r| <= |a|
    requires Replace(a[i + |r|..] + t + b, r, token) == Replace(a[i + |r|..], r, token) + t + Replace(b, r, token)
    ensures Replace(a + t + b, r, token) == Replace(a, r, token) + t + Replace(b, r, token)
  {
    hide *;
    ReplaceAt(a, r, token, i);
    ReplaceAt(a + t + b, r, token, i);
    CutInFirst(a, t, b, i, i + |r|);
    GlueFirst(a, t, b, i, i + |r|, token, Replace(a[i + |r|..], r, token), Replace(b, r, token));
  }

  lemma ReplaceBehind(a: string, t: string, b: string, r: string, token: string, j: nat)
    requires r != "" && First(a, r) == None && First(b, r) == Some(j) && First(a + t + b, r) == Some(|a| + |t| + j) && j + |r| <= |b|
    ensures Replace(a + t + b, r, token) == Replace(a, r, token) + t + Replace(b, r, token)
  {
    hide *;
    ReplaceFirst(a, r, token);
    ReplaceAt(b, r, token, j);
    ReplaceAt(a + t + b, r, token, |a| + |t| + j);
    CutInLast(a, t, b, j, j + |r|);
    GlueLast(a, t, b, j, j + |r|, token, Replace(b[j + |r|..], r, token));
  }

  lemma CutInFirst(a: string, t: string, b: string, i: nat, k: nat)
    requires i <= k <= |a|
    ensures (a + t + b)[..i] == a[..i] && (a + t + b)[k..] == a[k..] + t + b
  {
  }

  lemma CutInLast(a: string, t: string, b: string, j: nat, k: nat)
    requires j <= k <= |b|
    ensures (a + t + b)[..|a| + |t| + j] == a + t + b[..j] && (a + t + b)[|a| + |t| + k..] == b[k..]
  {
  }

  lemma ReplaceFirst(text: string, r: string, token: string)
    requires r != ""
    ensures Replace(text, r, token) ==
            if First(text, r).None? then text
            else text[..First(text, r).value] + token + Replace(text[First(text, r).value + |r|..], r, token)
  {
  }

  lemma FirstIs(text: string, r: string, i: nat)
    requires OccursAt(text, r, i) && forall j :: 0 <= j < i ==> !OccursAt(text, r, j)
    ensures First(text, r) == Some(i)
  {
  }

  lemma FirstIsNone(text: string, r: string)
    requires forall j :: !OccursAt(text, r, j)
    ensures First(text, r) == None
  {
  }

  /** A pass over the shown text is the pass over the document. */
  lemma {:induction false} PassShows(d: Doc, r: Rendering, rs: seq<Rendering>)
    requires Safe(r.text, rs) && MaskedBy(d, rs)
    ensures Shown(Pass(d, r)) == Replace(Shown(d), r.text, TokenOf(r.name))
  {
    SplitShows(d.text, r);
    if d.Masked? {
      PassShows(d.rest, r, rs);
      AppendShows(Split(d.text, r), d.mark, Pass(d.rest, r));
      var k :| 0 <= k < |rs| && rs[k] == d.mark;
      ReplaceAroundToken(d.text, d.mark.name, Shown(d.rest), r.text, TokenOf(r.name));
    }
  }

  /** A document whose plain text is free of a safe rendering does not show it anywhere. */
  lemma {:induction false} FreeShowsNothing(d: Doc, r: string, rs: seq<Rendering>)
    requires Safe(r, rs) && MaskedBy(d, rs) && FreeOf(d, r)
    ensures !Occurs(Shown(d), r)
  {
    if d.Masked? {
      FreeShowsNothing(d.rest, r, rs);
      var k :| 0 <= k < |rs| && rs[k] == d.mark;
      forall i
        ensures !OccursAt(Shown(d), r, i)
      {
        OccursAroundToken(d.text, d.mark.name, Shown(d.rest), r, i);
      }
    }
  }

  // ----- longest first

  predicate AllAtLeast(d: Doc, least: nat) {
    d.Masked? ==> |d.mark.text| >= least && AllAtLeast(d.rest, least)
  }

  lemma {:induction false} AppendMeets(d: Doc, mark: Rendering, rest: Doc, i: int, n: nat, least: nat)
    ensures Meets(Append(d, mark, rest), i, n, least) <==>
            || Meets(d, i, n, least)
            || (|mark.text| >= least && i < |Original(d)| + |mark.text| && i + n > |Original(d)|)
            || Meets(rest, i - |Original(d)| - |mark.text|, n, least)
  {
    if d.Masked? { AppendMeets(d.rest, mark, rest, i - |d.text| - |d.mark.text|, n, least); }
  }

  /** Masked ranges stay masked. */
  lemma {:induction false} PassKeepsMeets(d: Doc, r: Rendering, i: int, n: nat, least: nat)
    requires r.text != "" && Meets(d, i, n, least)
    ensures Meets(Pass(d, r), i, n, least)
  {
    SplitShows(d.text, r);
    AppendMeets(Split(d.text, r), d.mark, Pass(d.rest, r), i, n, least);
    if Meets(d.rest, i - |d.text| - |d.mark.text|, n, least) {
      PassKeepsMeets(d.rest, r, i - |d.text| - |d.mark.text|, n, least);
    }
  }

  lemma {:induction false} SplitMeets(text: string, r: Rendering, i: int)
    requires r.text != "" && OccursAt(text, r.text, i)
    ensures Meets(Split(text, r), i, |r.text|, |r.text|)
    decreases |text|
  {
    var j := First(text, r.text).value;
    if i >= j + |r.text| {
      assert text[j + |r.text|..][i - j - |r.text|..i - j] == text[i..i + |r.text|];
      SplitMeets(text[j + |r.text|..], r, i - j - |r.text|);
    }
  }

  lemma AtLeastParts(d: Doc, least: nat)
    requires AllAtLeast(d, least)
    ensures d.Masked? ==> |d.mark.text| >= least && AllAtLeast(d.rest, least)
  {
  }

  /** After a rendering's pass, each of its occurrences in the original meets a mask as long as it. */
  lemma {:induction false} PassMeets(d: Doc, r: Rendering, i: int)
    requires r.text != "" && AllAtLeast(d, |r.text|) && OccursAt(Original(d), r.text, i)
    ensures Meets(Pass(d, r), i, |r.text|, |r.text|)
  {
    hide First, FirstFrom, Split, Append, OccursAt, AllAtLeast;
    assert d.Masked? ==> |d.mark.text| >= |r.text| && AllAtLeast(d.rest, |r.text|) by { AtLeastParts(d, |r.text|); }
    if d.Plain? {
      SplitMeets(d.text, r, i);
    } else {
      var n, after := |r.text|, i - |d.text| - |d.mark.text|;
      SplitShows(d.text, r);
      AppendMeets(Split(d.text, r), d.mark, Pass(d.rest, r), i, n, n);
      if i + n <= |d.text| || after >= 0 {
        OccursInJoined(d.text, d.mark.text, Original(d.rest), r.text, i);
        if after >= 0 { PassMeets(d.rest, r, after); } else { SplitMeets(d.text, r, i); }
      }
    }
  }

  lemma {:induction false} AppendAtLeast(d: Doc, mark: Rendering, rest: Doc, least: nat)
    ensures AllAtLeast(Append(d, mark, rest), least) <==> AllAtLeast(d, least) && |mark.text| >= least && AllAtLeast(rest, least)
  {
    if d.Masked? { AppendAtLeast(d.rest, mark, rest, least); }
  }

  lemma {:induction false} SplitAtLeast(text: string, r: Rendering, least: nat)
    requires r.text != "" && |r.text| >= least
    ensures AllAtLeast(Split(text, r), least)
    decreases |text|
  {
    if First(text, r.text).Some? { SplitAtLeast(text[First(text, r.text).value + |r.text|..], r, least); }
  }

  lemma {:induction false} PassAtLeast(d: Doc, r: Rendering, least: nat)
    requires r.text != "" && |r.text| >= least && AllAtLeast(d, least)
    ensures AllAtLeast(Pass(d, r), least)
  {
    SplitAtLeast(d.text, r, least);
    if d.Masked? {
      PassAtLeast(d.rest, r, least);
      AppendAtLeast(Split(d.text, r), d.mark, Pass(d.rest, r), least);
    }
  }

  lemma {:induction false} AtLeastLess(d: Doc, least: nat, less: nat)
    requires AllAtLeast(d, least) && less <= least
    ensures AllAtLeast(d, less)
  {
    if d.Masked? { AtLeastLess(d.rest, least, less); }
  }

  // ----- the whole masking

  /** What holds of the document once the renderings before `k` have been masked. */
  ghost predicate MaskedUpTo(d: Doc, text: string, rs: seq<Rendering>, k: nat)
    requires k <= |rs|
  {
    && Original(d) == text && MaskedBy(d, rs)
    && (k < |rs| ==> AllAtLeast(d, |rs[k].text|))
    && (forall j :: 0 <= j < k ==> FreeOf(d, rs[j].text))
    && (forall j, i :: 0 <= j < k && OccursAt(text, rs[j].text, i) ==> Meets(d, i, |rs[j].text|, |rs[j].text|))
  }

  lemma OnePass(d: Doc, text: string, rs: seq<Rendering>, k: nat)
    requires NonEmpty(rs) && Descending(rs) && k < |rs| && MaskedUpTo(d, text, rs, k)
    ensures MaskedUpTo(Pass(d, rs[k]), text, rs, k + 1)
  {
    var r, after := rs[k], Pass(d, rs[k]);
    PassOriginal(d, r);
    PassMaskedBy(d, r, rs);
    PassAtLeast(d, r, |r.text|);
    if k + 1 < |rs| { AtLeastLess(after, |r.text|, |rs[k + 1].text|); }
    hide Pass, Meets, FreeOf, Original, OccursAt, AllAtLeast, MaskedBy;
    forall j | 0 <= j < k + 1
      ensures FreeOf(after, rs[j].text)
    {
      PassFree(d, r, rs[j].text);
    }
    forall j, i | 0 <= j < k + 1 && OccursAt(text, rs[j].text, i)
      ensures Meets(after, i, |rs[j].text|, |rs[j].text|)
    {
      if j < k {
        PassKeepsMeets(d, r, i, |rs[j].text|, |rs[j].text|);
      } else {
        PassMeets(d, r, i);
      }
    }
  }

  lemma {:induction false} PassesMask(d: Doc, text: string, rs: seq<Rendering>, k: nat)
    requires NonEmpty(rs) && Descending(rs) && k <= |rs| && MaskedUpTo(d, text, rs, k)
    requires forall j :: 0 <= j < |rs| ==> Safe(rs[j].text, rs)
    ensures MaskedUpTo(Passes(d, rs[k..]), text, rs, |rs|)
    ensures Shown(Passes(d, rs[k..])) == Apply(Shown(d), rs[k..])
    decreases |rs| - k
  {
    if k < |rs| {
      OnePass(d, text, rs, k);
      PassShows(d, rs[k], rs);
      PassesMask(Pass(d, rs[k]), text, rs, k + 1);
      assert rs[k..][1..] == rs[k + 1..] && rs[k..][0] == rs[k];
    }
  }

  /** When no included rendering can be mistaken for a part of a token, the output shows none of them;
      it is the text with some ranges that held renderings replaced by their names, and every
      occurrence of a rendering in the text meets such a range at least as long as itself. */
  lemma MaskingLeavesNoRendering(text: string, values: seq<JobValue>, included: JobValue -> bool)
    requires var rs := Included(values, included);
             forall r :: r in rs ==> Safe(r.text, rs)
    ensures var rs := Sorted(Included(values, included));
            && NonEmpty(rs)
            && var d := Passes(Plain(text), rs);
               && Original(d) == text && Shown(d) == Apply(text, rs) && MaskedBy(d, rs)
               && (forall k :: 0 <= k < |rs| ==> !Occurs(Apply(text, rs), rs[k].text))
               && (forall k, i :: 0 <= k < |rs| && OccursAt(text, rs[k].text, i) ==> Meets(d, i, |rs[k].text|, |rs[k].text|))
  {
    var rs := Sorted(Included(values, included));
    SortedIncluded(values, included);
    SortedIsDescending(Included(values, included));
    forall k | 0 <= k < |rs|
      ensures Safe(rs[k].text, rs)
    {
      SafeFor(rs[k].text, Included(values, included), rs);
    }
    assert rs[0..] == rs;
    PassesMask(Plain(text), text, rs, 0);
    forall k | 0 <= k < |rs|
      ensures !Occurs(Apply(text, rs), rs[k].text)
    {
      FreeShowsNothing(Passes(Plain(text), rs), rs[k].text, rs);
    }
  }

  lemma SafeFor(r: string, rs: seq<Rendering>, others: seq<Rendering>)
    requires Safe(r, rs) && forall x :: x in others ==> x in rs
    ensures Safe(r, others)
  {
    forall k | 0 <= k < |others|
      ensures !Occurs(Body(others[k].name), r)
    {
      assert others[k] in others && others[k] in rs;
      var j :| 0 <= j < |rs| && rs[j] == others[k];
    }
  }

  // ----- the exact condition

  /** None of the renderings is shown. */
  ghost predicate Clean(text: string, rs: seq<Rendering>) {
    forall j :: 0 <= j < |rs| ==> !Occurs(text, rs[j].text)
  }

  predicate Bracketless(rs: seq<Rendering>) {
    forall k :: 0 <= k < |rs| ==> '<' !in rs[k].text && '>' !in rs[k].text
  }

  lemma {:induction false} ApplyAroundBracket(a: string, c: char, b: string, rs: seq<Rendering>)
    requires NonEmpty(rs) && Bracketless(rs) && (c == '<' || c == '>')
    ensures Apply(a + [c] + b, rs) == Apply(a, rs) + [c] + Apply(b, rs)
    decreases |rs|
  {
    if rs != [] {
      var r, token := rs[0].text, TokenOf(rs[0].name);
      ReplaceAroundBracket(a, c, b, r, token);
      ApplyAroundBracket(Replace(a, r, token), c, Replace(b, r, token), rs[1..]);
    }
  }

  lemma OccursEitherSide(a: string, c: char, b: string, r: string)
    requires r != "" && c !in r
    ensures Occurs(a + [c] + b, r) <==> Occurs(a, r) || Occurs(b, r)
  {
    var whole := a + [c] + b;
    if i :| OccursAt(whole, r, i) {
      OccursAroundBracket(a, c, b, r, i);
    }
    if i :| OccursAt(a, r, i) {
      OccursAroundBracket(a, c, b, r, i);
    }
    if i :| OccursAt(b, r, i) {
      assert i + |a| + 1 - |a| - 1 == i;
      OccursAroundBracket(a, c, b, r, i + |a| + 1);
    }
  }

  lemma CleanAroundBracket(a: string, c: char, b: string, rs: seq<Rendering>)
    requires NonEmpty(rs) && Bracketless(rs) && (c == '<' || c == '>')
    ensures Clean(a + [c] + b, rs) <==> Clean(a, rs) && Clean(b, rs)
  {
    forall j | 0 <= j < |rs|
      ensures Occurs(a + [c] + b, rs[j].text) <==> Occurs(a, rs[j].text) || Occurs(b, rs[j].text)
    {
      OccursEitherSide(a, c, b, rs[j].text);
    }
    hide Occurs;
  }

  /** Renderings that do not occur change nothing. */
  lemma {:induction false} ApplySkips(text: string, rs: seq<Rendering>, k: nat)
    requires NonEmpty(rs) && k <= |rs| && FreeUpTo(text, rs, k)
    ensures NonEmpty(rs[k..]) && Apply(text, rs) == Apply(text, rs[k..])
    decreases k
  {
    if k > 0 {
      assert !Occurs(text, rs[0].text);
      FirstIsNone(text, rs[0].text);
      ReplaceFirst(text, rs[0].text, TokenOf(rs[0].name));
      assert rs[1..][k - 1..] == rs[k..];
      ApplySkips(text, rs[1..], k - 1);
    }
  }

  /** Masking each rendering by itself shows none of them. */
  ghost predicate EachAloneIsClean(rs: seq<Rendering>)
    requires NonEmpty(rs)
  {
    forall k :: 0 <= k < |rs| ==> Clean(Apply(rs[k].text, rs), rs)
  }

  /** Whatever the text, masking shows none of the renderings. */
  ghost predicate EveryTextIsClean(rs: seq<Rendering>)
    requires NonEmpty(rs)
  {
    forall text: string :: Clean(Apply(text, rs), rs)
  }

  function Bracketed(a: string, body: string, b: string): string {
    a + ['<'] + (body + ['>'] + b)
  }

  /** Later passes work on each side of a token and on its body separately. */
  lemma ApplyAroundToken(a: string, name: string, b: string, rs: seq<Rendering>)
    requires NonEmpty(rs) && Bracketless(rs)
    ensures Apply(a + TokenOf(name) + b, rs) == Bracketed(Apply(a, rs), Apply(Body(name), rs), Apply(b, rs))
  {
    hide Apply, TokenOf, Body, NonEmpty, Bracketless;
    TokenParts(a, name, b);
    ApplyAroundBracket(a, '<', Body(name) + ['>'] + b, rs);
    ApplyAroundBracket(Body(name), '>', b, rs);
  }

  lemma ApplyFirst(text: string, rs: seq<Rendering>)
    requires NonEmpty(rs) && rs != []
    ensures NonEmpty(rs[1..])
    ensures Apply(text, rs) == Apply(Replace(text, rs[0].text, TokenOf(rs[0].name)), rs[1..])
  {
  }

  /** Where a pass replaces, what later passes leave of the token is what they leave of the rendering
      by itself, and what precedes and follows is masked like any other text. */
  lemma ApplySplits(text: string, rs: seq<Rendering>, later: seq<Rendering>, i: nat)
    requires NonEmpty(rs) && rs != [] && later == rs[1..] && NonEmpty(later) && Bracketless(later)
    requires First(text, rs[0].text) == Some(i) && i + |rs[0].text| <= |text|
    ensures Apply(text, rs) == Bracketed(Apply(text[..i], later), Apply(Body(rs[0].name), later), Apply(text[i + |rs[0].text|..], rs))
  {
    assert rs[0].text != "";
    hide *;
    var r, token := rs[0].text, TokenOf(rs[0].name);
    var rest := text[i + |r|..];
    ApplyFirst(text, rs);
    ApplyFirst(rest, rs);
    ReplaceAt(text, r, token, i);
    ApplyAroundToken(text[..i], rs[0].name, Replace(rest, r, token), later);
  }

  lemma ApplyAlone(rs: seq<Rendering>, later: seq<Rendering>)
    requires NonEmpty(rs) && rs != [] && later == rs[1..] && NonEmpty(later) && Bracketless(later)
    ensures Apply(rs[0].text, rs) == Bracketed(Apply("", later), Apply(Body(rs[0].name), later), Apply("", later))
  {
    assert rs[0].text != "";
    hide *;
    var r, token := rs[0].text, TokenOf(rs[0].name);
    ApplyFirst(r, rs);
    ReplaceWhole(r, token);
    ApplyAroundToken("", rs[0].name, "", later);
    assert "" + token + "" == token;
  }

  lemma ReplaceWhole(r: string, token: string)
    requires r != ""
    ensures Replace(r, r, token) == token
  {
    FirstIs(r, r, 0);
    assert r[0..][|r|..] == "" && r[..0] == "";
    ReplaceAt(r, r, token, 0);
    FirstIsNone("", r);
  }

  /** The text is free of the renderings that have been masked already. */
  ghost predicate FreeUpTo(text: string, rs: seq<Rendering>, k: nat)
    requires k <= |rs|
  {
    forall i :: 0 <= i < k ==> !Occurs(text, rs[i].text)
  }

  lemma PartIsFreeUpTo(text: string, rs: seq<Rendering>, k: nat, lo: nat, hi: nat)
    requires k <= |rs| && FreeUpTo(text, rs, k) && lo <= hi <= |text|
    ensures FreeUpTo(text[lo..hi], rs, k)
  {
    forall j | 0 <= j < k
      ensures !Occurs(text[lo..hi], rs[j].text)
    {
      PartIsFree(text, rs[j].text, lo, hi);
    }
  }

  /** The three parts of a text at the first occurrence of the rendering whose turn it is. */
  lemma PartsAreFree(text: string, rs: seq<Rendering>, k: nat, i: nat)
    requires NonEmpty(rs) && k < |rs| && FreeUpTo(text, rs, k) && First(text, rs[k].text) == Some(i)
    ensures i + |rs[k].text| <= |text| && text[i..i + |rs[k].text|] == rs[k].text
    ensures FreeUpTo(text[..i], rs, k + 1) && FreeUpTo(text[i + |rs[k].text|..], rs, k) && FreeUpTo(rs[k].text, rs, k)
  {
    var r := rs[k].text;
    assert text[..i] == text[0..i] && text[i + |r|..] == text[i + |r|..|text|];
    BeforeFirst(text, r);
    hide First, Occurs;
    PartIsFreeUpTo(text, rs, k, 0, i);
    PartIsFreeUpTo(text, rs, k, i + |r|, |text|);
    PartIsFreeUpTo(text, rs, k, i, i + |r|);
  }

  lemma NothingToReplace(text: string, rs: seq<Rendering>, k: nat)
    requires NonEmpty(rs) && k < |rs| && First(text, rs[k].text).None? && FreeUpTo(text, rs, k)
    ensures Apply(text, rs[k..]) == Apply(text, rs[k + 1..]) && FreeUpTo(text, rs, k + 1)
  {
    assert rs[k..][1..] == rs[k + 1..] && rs[k..][0] == rs[k];
    ReplaceFirst(text, rs[k].text, TokenOf(rs[k].name));
    ApplyFirst(text, rs[k..]);
    hide First;
  }

  lemma {:induction false} CleanFrom(text: string, rs: seq<Rendering>, k: nat)
    requires NonEmpty(rs) && Bracketless(rs) && EachAloneIsClean(rs) && k <= |rs| && FreeUpTo(text, rs, k)
    ensures Clean(Apply(text, rs[k..]), rs)
    decreases |rs| - k, |text|
  {
    if k == |rs| {
      assert Apply(text, rs[k..]) == text;
    } else if First(text, rs[k].text).None? {
      NothingToReplace(text, rs, k);
      CleanFrom(text, rs, k + 1);
    } else {
      var i := First(text, rs[k].text).value;
      assert rs[k].text != "" && Clean(Apply(rs[k].text, rs), rs);
      hide *;
      TailOf(rs, k);
      PartsAreFree(text, rs, k, i);
      CleanFrom(text[..i], rs, k + 1);
      CleanFrom(text[i + |rs[k].text|..], rs, k);
      ApplySkips(rs[k].text, rs, k);
      CleanAtOccurrence(text, rs, rs[k..], rs[k + 1..], i);
    }
  }

  lemma TailOf(rs: seq<Rendering>, k: nat)
    requires NonEmpty(rs) && Bracketless(rs) && k < |rs|
    ensures rs[k..] != [] && rs[k..][0] == rs[k] && rs[k..][1..] == rs[k + 1..]
    ensures NonEmpty(rs[k..]) && NonEmpty(rs[k + 1..]) && Bracketless(rs[k + 1..])
  {
  }

  lemma CleanAtOccurrence(text: string, rs: seq<Rendering>, left: seq<Rendering>, later: seq<Rendering>, i: nat)
    requires NonEmpty(rs) && Bracketless(rs)
    requires NonEmpty(left) && left != [] && later == left[1..] && NonEmpty(later) && Bracketless(later)
    requires First(text, left[0].text) == Some(i) && i + |left[0].text| <= |text|
    requires Clean(Apply(text[..i], later), rs) && Clean(Apply(text[i + |left[0].text|..], left), rs)
    requires Clean(Apply(left[0].text, left), rs)
    ensures Clean(Apply(text, left), rs)
  {
    hide *;
    ApplySplits(text, left, later, i);
    ApplyAlone(left, later);
    JoinIsClean(Apply(text[..i], later), Apply(Body(left[0].name), later), Apply(text[i + |left[0].text|..], left), Apply("", later), rs);
  }

  lemma JoinIsClean(before: string, body: string, rest: string, none: string, rs: seq<Rendering>)
    requires NonEmpty(rs) && Bracketless(rs) && Clean(before, rs) && Clean(rest, rs)
    requires Clean(Bracketed(none, body, none), rs)
    ensures Clean(Bracketed(before, body, rest), rs)
  {
    hide Clean;
    CleanAroundBracket(none, '<', body + ['>'] + none, rs);
    CleanAroundBracket(body, '>', none, rs);
    CleanAroundBracket(body, '>', rest, rs);
    CleanAroundBracket(before, '<', body + ['>'] + rest, rs);
  }

  /** For renderings without brackets, in whatever order they are masked: every text is masked clean if
      and only if each rendering masked by itself is. */
  lemma MaskingIsCleanExactly(rs: seq<Rendering>)
    requires NonEmpty(rs) && Bracketless(rs)
    ensures EveryTextIsClean(rs) <==> EachAloneIsClean(rs)
  {
    hide Clean;
    if EachAloneIsClean(rs) {
      forall text: string
        ensures Clean(Apply(text, rs), rs)
      {
        assert rs[0..] == rs;
        CleanFrom(text, rs, 0);
      }
    }
  }

  /** A single pass whose rendering is found first at `i` and not again behind it. */
  lemma OnePassOnly(text: string, r: Rendering, i: nat)
    requires r.text != "" && i + |r.text| == |text| && text[i..] == r.text
    requires forall j :: 0 <= j < i ==> !OccursAt(text, r.text, j)
    ensures Apply(text, [r]) == text[..i] + TokenOf(r.name)
  {
    assert text[i..i + |r.text|] == r.text;
    FirstIs(text, r.text, i);
    ReplaceAt(text, r.text, TokenOf(r.name), i);
    assert text[i + |r.text|..] == "" && [r][1..] == [];
    FirstIsNone("", r.text);
    ReplaceFirst("", r.text, TokenOf(r.name));
    hide First, FirstFrom, TokenOf, Replace, OccursAt;
    assert Apply(text, [r]) == Replace(text, r.text, TokenOf(r.name));
  }

  /** Values that are still shown: one that occurs in its own token, one that is a bracket. With a
      bracket masking the value alone decides nothing: it may be clean, and another text not. */
  lemma UnsafeRenderingsSurvive()
    ensures Apply("a", [Rendering("name", "a")]) == "<value:name>" && OccursAt("<value:name>", "a", 2)
    ensures Apply("<", [Rendering("name", "<")]) == "<value:name>" && OccursAt("<value:name>", "<", 0)
    ensures Apply("a<", [Rendering("name", "a<")]) == "<value:name>" && !Occurs("<value:name>", "a<")
    ensures Apply("aa<", [Rendering("name", "a<")]) == "a<value:name>" && OccursAt("a<value:name>", "a<", 0)
  {
    NameToken();
    hide *;
    Alone("a");
    Alone("<");
    Alone("a<");
    BehindA();
    LiteralFacts();
  }

  lemma NameToken()
    ensures TokenOf("name") == "<value:name>"
  {
  }

  lemma Alone(text: string)
    requires text != ""
    ensures Apply(text, [Rendering("name", text)]) == TokenOf("name")
  {
    OnePassOnly(text, Rendering("name", text), 0);
    hide TokenOf, Apply;
    assert text[..0] == "" && "" + TokenOf("name") == TokenOf("name");
  }

  lemma BehindA()
    ensures Apply("aa<", [Rendering("name", "a<")]) == "a" + TokenOf("name")
  {
    assert "aa<"[0..2] == "aa" && "aa<"[1..] == "a<" && "aa<"[..1] == "a";
    hide TokenOf, Apply;
    OnePassOnly("aa<", Rendering("name", "a<"), 1);
  }

  lemma LiteralFacts()
    ensures OccursAt("<value:name>", "a", 2) && OccursAt("<value:name>", "<", 0) && !Occurs("<value:name>", "a<")
    ensures "a" + "<value:name>" == "a<value:name>" && OccursAt("a<value:name>", "a<", 0)
  {
    BracketIsFirst("value:name>");
    assert "<value:name>" == "<" + "value:name>";
  }

  lemma BracketIsFirst(rest: string)
    requires '<' !in rest
    ensures !Occurs("<" + rest, "a<")
  {
    var whole := "<" + rest;
    forall i
      ensures !OccursAt(whole, "a<", i)
    {
      if 0 <= i <= |whole| - 2 {
        assert whole[i..i + 2][1] == rest[i];
      }
    }
  }
}
