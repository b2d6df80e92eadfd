/** The inline runs of a heading as text, and where the copy mark goes in them. */
module CopyMark {

  // Where Python's `splitlines` would end a line.
  predicate LineBoundary(c: char) {
    var n := c as int;
    n == 10 || n == 11 || n == 12 || n == 13 || 28 <= n <= 30 || n == 133 || n == 0x2028 || n == 0x2029
  }

  // Line feed, vertical tab, form feed, carriage return, the three information separators above the unit separator, next
  // line, and the two separators of Unicode.
  lemma LineBoundaries(c: char)
    ensures LineBoundary(c) <==> c in "\n\U{0B}\U{0C}\r\U{1C}\U{1D}\U{1E}\U{85}\U{2028}\U{2029}"
  {}

  // The length of the first display line.
  function FirstLine(s: string): (n: nat)
    ensures n <= |s|
  {
    if s == "" || LineBoundary(s[0]) then 0 else 1 + FirstLine(s[1..])
  }

  lemma {:induction false} FirstLineExactly(s: string)
    ensures forall i | 0 <= i < FirstLine(s) :: !LineBoundary(s[i])
    ensures FirstLine(s) < |s| ==> LineBoundary(s[FirstLine(s)])
  {
    if s != "" && !LineBoundary(s[0]) {
      FirstLineExactly(s[1..]);
      forall i | 0 <= i < FirstLine(s) ensures !LineBoundary(s[i]) {
        if i > 0 { assert s[i] == s[1..][i - 1]; }
      }
    }
  }

  // " Copy" at the end of the first display line, and nothing else changed.
  function MarkCopy(s: string): string {
    s[..FirstLine(s)] + " Copy" + s[FirstLine(s)..]
  }

  lemma {:induction false} FirstLineConcat(a: string, b: string)
    ensures FirstLine(a + b) == if FirstLine(a) < |a| then FirstLine(a) else |a| + FirstLine(b)
  {
    if a == "" {
      assert a + b == b;
    } else {
      assert (a + b)[0] == a[0] && (a + b)[1..] == a[1..] + b;
      if !LineBoundary(a[0]) { FirstLineConcat(a[1..], b); }
    }
  }

  lemma MarkAt(s: string, x: string, y: string)
    requires s == x + y && |x| == FirstLine(s)
    ensures MarkCopy(s) == x + " Copy" + y
  {
    assert s[..|x|] == x && s[|x|..] == y;
  }

  lemma Regroup(a: string, b: string, c: string)
    ensures a + b + c == a + (b + c)
  {}

  lemma Regroup4(a: string, b: string, c: string, d: string)
    ensures a + (b + c) + d == (a + b) + (c + d)
  {
    Regroup(a, b, c);
    Regroup(a + b, c, d);
  }

  lemma MarkAfterWholeLine(a: string, b: string, x: string, y: string)
    requires b == x + y && FirstLine(a + b) == |a + x|
    ensures MarkCopy(a + b) == a + (x + " Copy" + y)
  {
    Regroup(a, x, y);
    MarkAt(a + b, a + x, y);
    Regroup(a, x, " Copy");
    Regroup(a, x + " Copy", y);
  }

  lemma MarkInFirst(a: string, b: string, x: string, y: string)
    requires a == x + y && FirstLine(a + b) == |x|
    ensures MarkCopy(a + b) == (x + " Copy" + y) + b
  {
    Regroup(x, y, b);
    MarkAt(a + b, x, y + b);
    Regroup(x + " Copy", y, b);
  }

  lemma CutAt(s: string, n: nat)
    requires n <= |s|
    ensures s == s[..n] + s[n..]
  {}

  lemma MarkWithin(a: string, b: string)
    ensures FirstLine(a) == |a| ==> MarkCopy(a + b) == a + MarkCopy(b)
    ensures FirstLine(a) < |a| ==> MarkCopy(a + b) == MarkCopy(a) + b
  {
    FirstLineConcat(a, b);
    if FirstLine(a) == |a| {
      CutAt(b, FirstLine(b));
      MarkAfterWholeLine(a, b, b[..FirstLine(b)], b[FirstLine(b)..]);
    } else {
      CutAt(a, FirstLine(a));
      MarkInFirst(a, b, a[..FirstLine(a)], a[FirstLine(a)..]);
    }
  }

  datatype Run = Words(text: string) | Break

  function TextOf(r: Run): string {
    if r.Break? then "\n" else r.text
  }

  function RunText(runs: seq<Run>): string {
    if runs == [] then "" else RunText(runs[..|runs| - 1]) + TextOf(runs[|runs| - 1])
  }

  predicate WholeLine(r: Run) {
    r.Words? && FirstLine(r.text) == |r.text|
  }

  // What the copy does to the list of runs: one text is replaced, or the mark is put in front.
  datatype Edit = Replace(at: nat, text: string) | PutFirst

  // Decided from position i on, everything before it being text without a line end.
  function EditFrom(runs: seq<Run>, i: nat): (e: Edit)
    requires runs != [] && i <= |runs| && forall j | 0 <= j < i :: WholeLine(runs[j])
    ensures e.Replace? ==> e.at < |runs| && runs[e.at].Words?
    decreases |runs| - i
  {
    if i < |runs| && WholeLine(runs[i]) then EditFrom(runs, i + 1)
    else if i < |runs| && runs[i].Words? then Replace(i, MarkCopy(runs[i].text))
    else if i == 0 then PutFirst
    else
      assert WholeLine(runs[i - 1]);
      Replace(i - 1, runs[i - 1].text + " Copy")
  }

  function Edited(runs: seq<Run>, e: Edit): seq<Run>
    requires e.Replace? ==> e.at < |runs|
  {
    match e
    case PutFirst => [Words(" Copy")] + runs
    case Replace(at, text) => runs[at := Words(text)]
  }

  lemma {:induction false} RunTextConcat(a: seq<Run>, b: seq<Run>)
    ensures RunText(a + b) == RunText(a) + RunText(b)
  {
    if b == [] {
      assert a + b == a;
    } else {
      var front, last := b[..|b| - 1], b[|b| - 1];
      RunTextConcat(a, front);
      assert (a + b)[..|a + b| - 1] == a + front && (a + b)[|a + b| - 1] == last;
      Regroup(RunText(a), RunText(front), TextOf(last));
    }
  }

  lemma RunTextOne(r: Run)
    ensures RunText([r]) == TextOf(r)
  {
    assert [r][..0] == [];
  }

  lemma {:induction false} WholeLines(runs: seq<Run>)
    requires forall j | 0 <= j < |runs| :: WholeLine(runs[j])
    ensures FirstLine(RunText(runs)) == |RunText(runs)|
  {
    if runs != [] {
      WholeLines(runs[..|runs| - 1]);
      FirstLineConcat(RunText(runs[..|runs| - 1]), TextOf(runs[|runs| - 1]));
    }
  }

  // The runs split at i, as text.
  lemma RunTextAround(runs: seq<Run>, a: seq<Run>, r: Run, b: seq<Run>)
    requires runs == a + [r] + b
    ensures RunText(runs) == RunText(a) + TextOf(r) + RunText(b)
  {
    RunTextConcat(a + [r], b);
    RunTextConcat(a, [r]);
    RunTextOne(r);
  }

  lemma SplitTwo(runs: seq<Run>, i: nat)
    requires i <= |runs|
    ensures runs == runs[..i] + runs[i..]
  {}

  lemma SplitAt(runs: seq<Run>, i: nat)
    requires i < |runs|
    ensures runs == runs[..i] + [runs[i]] + runs[i + 1..]
  {}

  lemma RunTextAt(runs: seq<Run>, i: nat)
    requires i < |runs|
    ensures RunText(runs) == RunText(runs[..i]) + TextOf(runs[i]) + RunText(runs[i + 1..])
  {
    SplitAt(runs, i);
    RunTextAround(runs, runs[..i], runs[i], runs[i + 1..]);
  }

  lemma ReplacedText(runs: seq<Run>, i: nat, text: string)
    requires i < |runs|
    ensures RunText(runs[i := Words(text)]) == RunText(runs[..i]) + text + RunText(runs[i + 1..])
  {
    var r := runs[i := Words(text)];
    RunTextAt(r, i);
    assert r[..i] == runs[..i] && r[i + 1..] == runs[i + 1..];
  }

  // The first line boundary lies in the middle of three texts.
  lemma MarkInMiddle(a: string, t: string, c: string)
    requires FirstLine(a) == |a| && FirstLine(t) < |t|
    ensures MarkCopy(a + t + c) == a + MarkCopy(t) + c
  {
    MarkWithin(a, t + c);
    MarkWithin(t, c);
    Regroup(a, t, c);
    Regroup(a, MarkCopy(t), c);
  }

  // Whole lines, then a run that holds the first line boundary.
  lemma MarkAtBoundary(runs: seq<Run>, i: nat)
    requires i < |runs| && runs[i].Words? && !WholeLine(runs[i]) && forall j | 0 <= j < i :: WholeLine(runs[j])
    ensures RunText(runs[i := Words(MarkCopy(runs[i].text))]) == MarkCopy(RunText(runs))
  {
    RunTextAt(runs, i);
    WholeLines(runs[..i]);
    ReplacedText(runs, i, MarkCopy(runs[i].text));
    MarkInMiddle(RunText(runs[..i]), runs[i].text, RunText(runs[i + 1..]));
  }

  // The edit marks the whole text: its first display line ends in " Copy", and nothing else changes.
  lemma {:induction false} EditMarksText(runs: seq<Run>, i: nat)
    requires runs != [] && i <= |runs| && forall j | 0 <= j < i :: WholeLine(runs[j])
    ensures RunText(Edited(runs, EditFrom(runs, i))) == MarkCopy(RunText(runs))
    decreases |runs| - i
  {
    if i < |runs| && WholeLine(runs[i]) {
      EditMarksText(runs, i + 1);
    } else if i < |runs| && runs[i].Words? {
      MarkAtBoundary(runs, i);
    } else {
      MarkBeforeBreak(runs, i);
    }
  }

  lemma MarkSplit(runs: seq<Run>, a: seq<Run>, b: seq<Run>)
    requires runs == a + b && (forall j | 0 <= j < |a| :: WholeLine(a[j])) && (b == [] || b[0].Break?)
    ensures MarkCopy(RunText(runs)) == RunText(a) + (" Copy" + RunText(b))
  {
    RunTextConcat(a, b);
    WholeLines(a);
    BreakComesFirst(b);
    MarkWithin(RunText(a), RunText(b));
  }

  // Whole lines, then a break or the end.
  lemma MarkBeforeBreak(runs: seq<Run>, i: nat)
    requires runs != [] && i <= |runs| && forall j | 0 <= j < i :: WholeLine(runs[j])
    requires i < |runs| ==> runs[i].Break?
    ensures RunText(Edited(runs, EditFrom(runs, i))) == MarkCopy(RunText(runs))
  {
    SplitTwo(runs, i);
    MarkSplit(runs, runs[..i], runs[i..]);
    EditAtBreak(runs, i, EditFrom(runs, i));
  }

  lemma EditAtBreak(runs: seq<Run>, i: nat, e: Edit)
    requires i <= |runs| && (i > 0 ==> runs[i - 1].Words?)
    requires e == if i == 0 then PutFirst else Replace(i - 1, runs[i - 1].text + " Copy")
    ensures RunText(Edited(runs, e)) == RunText(runs[..i]) + (" Copy" + RunText(runs[i..]))
  {
    if i == 0 { PutFirstText(runs); } else { MarkLastLine(runs, i); }
  }

  lemma PutFirstText(runs: seq<Run>)
    ensures RunText(Edited(runs, PutFirst)) == RunText(runs[..0]) + (" Copy" + RunText(runs[0..]))
  {
    RunTextConcat([Words(" Copy")], runs);
    RunTextOne(Words(" Copy"));
    assert runs[0..] == runs;
  }

  lemma MarkLastLine(runs: seq<Run>, i: nat)
    requires 0 < i <= |runs| && runs[i - 1].Words?
    ensures RunText(Edited(runs, Replace(i - 1, runs[i - 1].text + " Copy"))) ==
              RunText(runs[..i]) + (" Copy" + RunText(runs[i..]))
  {
    ReplacedText(runs, i - 1, runs[i - 1].text + " Copy");
    TextBefore(runs, i);
    Regroup4(RunText(runs[..i - 1]), runs[i - 1].text, " Copy", RunText(runs[i..]));
  }

  lemma TextBefore(runs: seq<Run>, i: nat)
    requires 0 < i <= |runs|
    ensures RunText(runs[..i]) == RunText(runs[..i - 1]) + TextOf(runs[i - 1])
  {
    assert runs[..i][..i - 1] == runs[..i - 1];
  }

  lemma BreakComesFirst(runs: seq<Run>)
    requires runs == [] || runs[0].Break?
    ensures MarkCopy(RunText(runs)) == " Copy" + RunText(runs)
  {
    if runs != [] {
      assert runs == [runs[0]] + runs[1..];
      RunTextConcat([runs[0]], runs[1..]);
      RunTextOne(runs[0]);
    }
  }
}

/** Duplicating a chapter: the first display line of its leading level-one heading gains " Copy". */
module DocumentCopy {
  import opened Wrappers
  import opened Json
  import opened Document
  import opened CopyMark

  function TextNode(text: string): Json {
    JObj(map["type" := JStr("text"), "text" := JStr(text)])
  }

  function HeadingOf(title: string): Json {
    JObj(map["type" := JStr("heading"), "attrs" := JObj(map["level" := JInt(1)]), "content" := JArr([TextNode(title)])])
  }

  function SetText(node: Json, text: string): Json {
    if node.JObj? then JObj(node.fields["text" := JStr(text)]) else node
  }

  function SetContent(node: Json, content: seq<Json>): Json {
    if node.JObj? then JObj(node.fields["content" := JArr(content)]) else node
  }

  predicate Inline(node: Json) {
    ValidTree(node) && (Kind(node) == "text" || Kind(node) == "hardBreak")
  }

  function RunOf(node: Json): Run {
    if Kind(node) == "text" && node.JObj? && Get(node.fields, "text").JStr? then Words(node.fields["text"].s) else Break
  }

  function Runs(content: seq<Json>): (r: seq<Run>)
    ensures |r| == |content| && forall i | 0 <= i < |content| :: r[i] == RunOf(content[i])
  {
    seq(|content|, i requires 0 <= i < |content| => RunOf(content[i]))
  }

  function EditedNodes(content: seq<Json>, e: Edit): seq<Json>
    requires e.Replace? ==> e.at < |content|
  {
    match e
    case PutFirst => [TextNode(" Copy")] + content
    case Replace(at, text) => content[at := SetText(content[at], text)]
  }

  predicate LevelOneHeading(node: Json) {
    && Kind(node) == "heading" && node.JObj? && Attrs(node).Some?
    && GetOr(Attrs(node).value, "level", JInt(1)) == JInt(1)
  }

  function CopiedRun(content: seq<Json>, title: string): seq<Json> {
    if content == [] then [TextNode(title)] else EditedNodes(content, EditFrom(Runs(content), 0))
  }

  function Duplicate(doc: Json, title: string): Json {
    var nodes := Children(doc);
    if nodes == [] || !LevelOneHeading(nodes[0]) then SetContent(doc, [HeadingOf(title)] + nodes)
    else SetContent(doc, nodes[0 := SetContent(nodes[0], CopiedRun(Children(nodes[0]), title))])
  }

  /******* validity *******/

  lemma TextNodeValid(text: string)
    ensures Inline(TextNode(text)) && RunOf(TextNode(text)) == Words(text)
  {
    assert Children(TextNode(text)) == [];
  }

  lemma HeadingValid(title: string)
    ensures ValidTree(HeadingOf(title)) && Kind(HeadingOf(title)) == "heading"
  {
    TextNodeValid(title);
    var h := HeadingOf(title);
    assert Children(h) == [TextNode(title)];
    assert Attrs(h) == Some(map["level" := JInt(1)]);
  }

  lemma SetTextValid(node: Json, text: string)
    requires Inline(node) && RunOf(node).Words?
    ensures Inline(SetText(node, text)) && RunOf(SetText(node, text)) == Words(text)
  {
    assert Children(SetText(node, text)) == Children(node);
  }

  lemma SetContentValid(node: Json, content: seq<Json>)
    requires NodeOk(node) && !Leaf(Kind(node))
    requires forall i | 0 <= i < |content| :: ValidTree(content[i]) && ChildOk(Kind(node), content[i])
    ensures ValidTree(SetContent(node, content)) && Kind(SetContent(node, content)) == Kind(node)
    ensures Children(SetContent(node, content)) == content
  {
    var n := SetContent(node, content);
    assert Children(n) == content;
    assert Attrs(n) == Attrs(node);
  }

  predicate InlineRun(content: seq<Json>) {
    forall i | 0 <= i < |content| :: Inline(content[i])
  }

  lemma CopiedRunInline(content: seq<Json>, title: string)
    requires InlineRun(content)
    ensures InlineRun(CopiedRun(content, title))
    ensures Runs(CopiedRun(content, title)) ==
              if content == [] then [Words(title)] else Edited(Runs(content), EditFrom(Runs(content), 0))
  {
    if content == [] { TextNodeValid(title); } else { EditedNodesInline(content, EditFrom(Runs(content), 0)); }
  }

  lemma EditedNodesInline(content: seq<Json>, e: Edit)
    requires InlineRun(content) && (e.Replace? ==> e.at < |content| && RunOf(content[e.at]).Words?)
    ensures InlineRun(EditedNodes(content, e)) && Runs(EditedNodes(content, e)) == Edited(Runs(content), e)
  {
    match e
    case PutFirst => PutInline(TextNode(" Copy"), content); TextNodeValid(" Copy");
    case Replace(at, text) =>
      SetTextValid(content[at], text);
      ReplaceInline(content, at, SetText(content[at], text));
  }

  lemma PutInline(node: Json, content: seq<Json>)
    ensures Inline(node) && InlineRun(content) ==> InlineRun([node] + content)
    ensures Runs([node] + content) == [RunOf(node)] + Runs(content)
  {}

  lemma ReplaceInline(content: seq<Json>, at: nat, node: Json)
    requires at < |content| && Inline(node) && InlineRun(content)
    ensures InlineRun(content[at := node]) && Runs(content[at := node]) == Runs(content)[at := RunOf(node)]
  {}

  lemma HeadingRun(doc: Json)
    requires ValidTree(doc) && Children(doc) != [] && Kind(Children(doc)[0]) == "heading"
    ensures ValidTree(Children(doc)[0]) && InlineRun(Children(Children(doc)[0]))
  {
    var h := Children(doc)[0];
    assert ValidTree(h);
    forall i | 0 <= i < |Children(h)| ensures Inline(Children(h)[i]) {
      assert ChildOk(Kind(h), Children(h)[i]);
    }
  }

  lemma HeadingWith(node: Json, content: seq<Json>)
    requires ValidTree(node) && Kind(node) == "heading" && InlineRun(content)
    ensures ValidTree(SetContent(node, content)) && Kind(SetContent(node, content)) == "heading"
    ensures Children(SetContent(node, content)) == content
  {
    forall i | 0 <= i < |content| ensures ValidTree(content[i]) && ChildOk(Kind(node), content[i]) {
      assert Inline(content[i]);
    }
    SetContentValid(node, content);
  }

  lemma DocumentWith(doc: Json, h: Json, rest: seq<Json>)
    requires ValidDocument(doc) && ValidTree(h) && Kind(h) == "heading"
    requires rest == Children(doc) || (Children(doc) != [] && rest == Children(doc)[1..])
    ensures ValidDocument(SetContent(doc, [h] + rest)) && Children(SetContent(doc, [h] + rest)) == [h] + rest
  {
    var shift := |Children(doc)| - |rest|;
    forall i | 0 <= i < |[h] + rest| ensures ValidTree(([h] + rest)[i]) && ChildOk("doc", ([h] + rest)[i]) {
      if i > 0 {
        assert ([h] + rest)[i] == Children(doc)[i - 1 + shift];
        assert ValidTree(Children(doc)[i - 1 + shift]);
      }
    }
    SetContentValid(doc, [h] + rest);
  }

  lemma FirstReplaced(nodes: seq<Json>, h: Json)
    requires nodes != []
    ensures nodes[0 := h] == [h] + nodes[1..] && ([h] + nodes[1..])[1..] == nodes[1..]
  {}

  // A duplicate of an accepted document is accepted. Only its first node is new; the rest, and every other field of
  // the document, is as it was.
  lemma DuplicateValid(doc: Json, title: string)
    requires ValidDocument(doc)
    ensures ValidDocument(Duplicate(doc, title))
    ensures var nodes, copies := Children(doc), Children(Duplicate(doc, title));
            if nodes == [] || !LevelOneHeading(nodes[0]) then copies == [HeadingOf(title)] + nodes
            else |copies| == |nodes| && copies[1..] == nodes[1..]
                 && copies[0] == SetContent(nodes[0], CopiedRun(Children(nodes[0]), title))
    ensures Duplicate(doc, title).JObj? && doc.JObj?
            && Duplicate(doc, title).fields - {"content"} == doc.fields - {"content"}
  {
    var nodes := Children(doc);
    if nodes == [] || !LevelOneHeading(nodes[0]) {
      HeadingValid(title);
      DocumentWith(doc, HeadingOf(title), nodes);
    } else {
      HeadingRun(doc);
      var h := SetContent(nodes[0], CopiedRun(Children(nodes[0]), title));
      CopiedRunInline(Children(nodes[0]), title);
      HeadingWith(nodes[0], CopiedRun(Children(nodes[0]), title));
      FirstReplaced(nodes, h);
      DocumentWith(doc, h, nodes[1..]);
    }
  }

  /******* the text *******/

  // The copy of a document gets a heading of its own, of level one and with the title as its text, exactly when it does not
  // start with a heading whose level is one or is not given.
  lemma NewHeadingExactly(doc: Json, title: string, placeholders: bool)
    requires ValidDocument(doc)
    ensures var nodes, copies := Children(doc), Children(Duplicate(doc, title));
            if nodes != [] && Kind(nodes[0]) == "heading" && nodes[0].JObj?
               && (!Truthy(Get(nodes[0].fields, "attrs")) || (nodes[0].fields["attrs"].JObj?
                   && ("level" in nodes[0].fields["attrs"].fields ==> nodes[0].fields["attrs"].fields["level"] == JInt(1))))
            then |copies| == |nodes|
            else
              && |copies| == |nodes| + 1 && ValidTree(copies[0]) && Kind(copies[0]) == "heading"
              && InlineText(copies[0], placeholders) == title && LevelOneHeading(copies[0])
  {
    DuplicateValid(doc, title);
    HeadingValid(title);
    var h := HeadingOf(title);
    assert Children(h) == [TextNode(title)];
    TextNodeValid(title);
    HeadingText(h, placeholders);
    RunTextOne(Words(title));
    assert Runs(Children(h)) == [Words(title)];
  }

  lemma InlineOfRun(node: Json, placeholders: bool)
    requires Inline(node)
    ensures InlineText(node, placeholders) == TextOf(RunOf(node))
  {}

  lemma {:induction false} FlatIsRunText(parts: seq<string>, runs: seq<Run>)
    requires |parts| == |runs| && forall i | 0 <= i < |runs| :: parts[i] == TextOf(runs[i])
    ensures Flat(parts) == RunText(runs)
  {
    if runs != [] { FlatIsRunText(parts[..|parts| - 1], runs[..|runs| - 1]); }
  }

  lemma HeadingText(h: Json, placeholders: bool)
    requires ValidTree(h) && Kind(h) == "heading" && InlineRun(Children(h))
    ensures InlineText(h, placeholders) == RunText(Runs(Children(h)))
  {
    var content, parts := Children(h), InlineParts(h, placeholders);
    forall i | 0 <= i < |content| ensures parts[i] == TextOf(Runs(content)[i]) { InlineOfRun(content[i], placeholders); }
    FlatIsRunText(parts, Runs(content));
  }

  // The heading of the copy reads as the original one with " Copy" at the end of its first display line; an empty one
  // reads as the title.
  lemma DuplicateMarksHeading(doc: Json, title: string, placeholders: bool)
    requires ValidDocument(doc) && Children(doc) != [] && LevelOneHeading(Children(doc)[0])
    ensures var copies := Children(Duplicate(doc, title));
            var h := Children(doc)[0];
            && copies != [] && ValidTree(h) && ValidTree(copies[0])
            && InlineText(copies[0], placeholders) ==
                 (if Children(h) == [] then title else MarkCopy(InlineText(h, placeholders)))
  {
    HeadingRun(doc);
    DuplicateValid(doc, title);
    var h := Children(doc)[0];
    var run := CopiedRun(Children(h), title);
    CopiedRunInline(Children(h), title);
    HeadingWith(h, run);
    HeadingText(h, placeholders);
    HeadingText(SetContent(h, run), placeholders);
    if Children(h) == [] { RunTextOne(Words(title)); } else { EditMarksText(Runs(Children(h)), 0); }
  }

  // `b` is `a` with another text, and nothing else, at position k.
  predicate SameButText(a: seq<Json>, b: seq<Json>, k: nat) {
    && |a| == |b| && k < |a| && a[..k] == b[..k] && a[k + 1..] == b[k + 1..]
    && RunOf(a[k]).Words? && a[k].JObj? && b[k].JObj? && a[k].fields - {"text"} == b[k].fields - {"text"}
  }

  lemma SetTextTouchesText(content: seq<Json>, k: nat, text: string)
    requires k < |content| && RunOf(content[k]).Words?
    ensures SameButText(content, content[k := SetText(content[k], text)], k)
  {}

  // Apart from one text, the runs of the heading are the same nodes, with the same marks, in the same order.
  lemma DuplicateTouchesOneRun(content: seq<Json>, title: string)
    requires content != []
    ensures CopiedRun(content, title) == [TextNode(" Copy")] + content
            || exists k :: SameButText(content, CopiedRun(content, title), k)
  {
    var e := EditFrom(Runs(content), 0);
    if e.Replace? { SetTextTouchesText(content, e.at, e.text); }
  }

  // The loop over the heading's runs, editing the copied list in place; `previous` is the last text passed.
  method CopyHeadingRun(content: seq<Json>) returns (r: seq<Json>)
    requires content != []
    ensures r == EditedNodes(content, EditFrom(Runs(content), 0))
  {
    r := content;
    var index, runs := 0, Runs(content);
    while index < |content|
      invariant index <= |content| && r == content
      invariant forall j | 0 <= j < index :: WholeLine(runs[j])
      invariant EditFrom(runs, 0) == EditFrom(runs, index)
    {
      var run := runs[index];
      if run.Break? {
        if index == 0 {
          r := [TextNode(" Copy")] + r;
        } else {
          r := r[index - 1 := SetText(r[index - 1], runs[index - 1].text + " Copy")];
        }
        return;
      }
      var position := FirstLine(run.text);
      if position < |run.text| {
        r := r[index := SetText(r[index], run.text[..position] + " Copy" + run.text[position..])];
        return;
      }
      index := index + 1;
    }
    r := r[index - 1 := SetText(r[index - 1], runs[index - 1].text + " Copy")];
  }

  method DuplicateDocument(doc: Json, title: string) returns (r: Option<Json>)
    ensures r == if ValidDocument(doc) then Some(Duplicate(doc, title)) else None
  {
    var accepted := Validate(doc);
    if !accepted { return None; }
    var nodes := Children(doc);
    if nodes == [] || !LevelOneHeading(nodes[0]) { return Some(SetContent(doc, [HeadingOf(title)] + nodes)); }
    var content := Children(nodes[0]);
    if content == [] {
      content := [TextNode(title)];
    } else {
      content := CopyHeadingRun(content);
    }
    return Some(SetContent(doc, nodes[0 := SetContent(nodes[0], content)]));
  }
}
