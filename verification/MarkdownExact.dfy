/** How the Markdown projection reads: prefixes of quotes, markers and numbers of items, headings, rules and fences. */
module MarkdownExact {
  import opened Wrappers
  import opened Json
  import opened Document
  import opened MarkdownLayout
  import opened DocumentMarkdown
  import CodeFence
  import T = Text

  /******* quotes *******/

  // Line by line a quote is what it quotes, behind an angle bracket and, unless the line is empty, a space.
  lemma QuotedLines(content: string, i: nat)
    requires i < |T.Split(content)|
    ensures |T.Split(Quote(content))| == |T.Split(content)|
    ensures var l := T.Split(content)[i];
            T.Split(Quote(content))[i] == if l == "" then ">" else "> " + l
  {
    SplitQuote(content);
  }

  /******* lists *******/

  // The i-th group of a list is the first of what is left after i items.
  lemma {:induction false} ItemGroupAt(ordered: bool, start: int, texts: seq<string>, i: nat)
    requires i < |texts|
    ensures |ItemGroups(ordered, start, texts)| == |texts| && ItemGroups(ordered, start + i, texts[i..]) != []
    ensures ItemGroups(ordered, start, texts)[i] == ItemGroups(ordered, start + i, texts[i..])[0]
    decreases i
  {
    ItemGroupCount(ordered, start, texts);
    if i == 0 {
      assert texts[0..] == texts;
    } else {
      ItemGroupAt(ordered, start + 1, texts[1..], i - 1);
      assert start + 1 + (i - 1) == start + i && texts[1..][i - 1..] == texts[i..];
    }
  }

  lemma ItemGroupHead(ordered: bool, start: int, texts: seq<string>)
    requires texts != []
    ensures ItemGroups(ordered, start, texts) != []
    ensures ItemGroups(ordered, start, texts)[0] == ItemLines(Marker(ordered, start), texts[0])
  {}

  lemma {:induction false} ItemGroupCount(ordered: bool, start: int, texts: seq<string>)
    ensures |ItemGroups(ordered, start, texts)| == |texts|
    decreases |texts|
  {
    if texts != [] { ItemGroupCount(ordered, start + 1, texts[1..]); }
  }

  // The lines of the i-th item: its first behind its number, counted from the start, and a full stop, or behind a hyphen,
  // and a space; the others as far to the right.
  lemma MarkedLines(ordered: bool, start: int, texts: seq<string>, i: nat, j: nat)
    requires i < |texts| && j < |T.Split(texts[i])|
    ensures var groups := Groups(T.Split(ListText(ordered, start, texts)));
            var marker := if ordered then T.IntText(start + i) + ". " else "- ";
            && |groups| == |texts| && |groups[i]| == |T.Split(texts[i])|
            && groups[i][j] == (if j == 0 then marker else T.Repeat(' ', |marker|)) + T.Split(texts[i])[j]
  {
    GroupsOfList(ordered, start, texts);
    ItemGroupAt(ordered, start, texts, i);
    ItemGroupHead(ordered, start + i, texts[i..]);
  }

  // An ordered list counts from its start, or from one where it has none; the text of a child is behind its number.
  lemma ItemsNumbered(node: Json, start: int, i: nat)
    requires ValidTree(node) && Kind(node) == "orderedList" && StartsOk(node) && i < |Children(node)|
    requires var attrs := Attrs(node).value;
             if "start" in attrs then attrs["start"] == JInt(start) else start == 1
    ensures MarkdownBlock(node).Some? && MarkdownBlock(Children(node)[i]).Some?
    ensures var groups := Groups(T.Split(MarkdownBlock(node).value));
            && |groups| == |Children(node)| && groups[i] != []
            && groups[i][0] == T.IntText(start + i) + ". " + T.Split(MarkdownBlock(Children(node)[i]).value)[0]
  {
    OrderedText(node, start);
    var parts := Rendered(node, |Children(node)|).value;
    RenderedAt(node, |Children(node)|, i);
    MarkedLines(true, start, parts, i, 0);
  }

  lemma OrderedText(node: Json, start: int)
    requires ValidTree(node) && Kind(node) == "orderedList" && StartsOk(node)
    requires var attrs := Attrs(node).value;
             if "start" in attrs then attrs["start"] == JInt(start) else start == 1
    ensures Rendered(node, |Children(node)|).Some?
    ensures MarkdownBlock(node) == Some(ListText(true, start, Rendered(node, |Children(node)|).value))
  {
    BlockRendersExactly(node);
  }

  /******* the other blocks *******/

  // A heading is as many number signs as its level, one where none is given, a space, and its text; a paragraph its text; a
  // rule three hyphens; and media their placeholder.
  lemma BlocksRead(node: Json, level: nat)
    requires ValidTree(node)
    requires Kind(node) == "heading" ==>
               if "level" in Attrs(node).value then Attrs(node).value["level"] == JInt(level) else level == 1
    ensures Kind(node) == "heading" ==>
              MarkdownBlock(node).Some? && var m := MarkdownBlock(node).value;
                                           && |m| == level + 1 + |InlineText(node, false)| && 1 <= level <= 6
                                           && (forall k | 0 <= k < level :: m[k] == '#')
                                           && m[level] == ' ' && m[level + 1..] == InlineText(node, false)
    ensures Kind(node) == "paragraph" ==> MarkdownBlock(node) == Some(InlineText(node, false))
    ensures Kind(node) == "horizontalRule" ==> MarkdownBlock(node) == Some("---")
    ensures Kind(node) == "image" || Kind(node) == "audio" || Kind(node) == "video" ==> MarkdownBlock(node) == Some(MediaPlaceholder(node))
  {}

  lemma ContainerText(node: Json)
    requires ValidTree(node) && StartsOk(node) && (Kind(node) == "doc" || Kind(node) == "listItem")
    ensures Rendered(node, |Children(node)|).Some?
    ensures MarkdownBlock(node) == Some(T.Join(Rendered(node, |Children(node)|).value, "\n\n"))
  {
    BlockRendersExactly(node);
    PlainContainers(Kind(node));
    ContainerShape(node);
  }

  predicate PlainContainer(kind: string) {
    !TextBlock(kind) && !ListKind(kind) && !Media(kind) && kind != "horizontalRule" && kind != "blockquote"
  }

  lemma PlainContainers(kind: string)
    requires kind == "doc" || kind == "listItem"
    ensures PlainContainer(kind)
  {}

  lemma ContainerShape(node: Json)
    requires ValidTree(node) && PlainContainer(Kind(node))
    ensures var parts := Rendered(node, |Children(node)|);
            MarkdownBlock(node) == if parts.None? then None else Some(T.Join(parts.value, "\n\n"))
  {}

  // The blocks of a document, or of an item, are set apart by an empty line.
  lemma ContainersRead(node: Json)
    requires ValidTree(node) && StartsOk(node) && (Kind(node) == "doc" || Kind(node) == "listItem")
    ensures Rendered(node, |Children(node)|).Some?
    ensures var parts := Rendered(node, |Children(node)|).value;
            && MarkdownBlock(node) == Some(T.Join(parts, "\n\n"))
            && forall i | 0 <= i < |parts| :: MarkdownBlock(Children(node)[i]) == Some(parts[i])
  {
    ContainerText(node);
    var parts := Rendered(node, |Children(node)|).value;
    forall i | 0 <= i < |parts| ensures MarkdownBlock(Children(node)[i]) == Some(parts[i]) {
      RenderedAt(node, |Children(node)|, i);
    }
  }

  // A document that has blocks is these, so set apart, and two line feeds; one without is empty. Of the two refusals the
  // validator's comes first.
  lemma DocumentReads(doc: Json)
    ensures ValidDocument(doc) && StartsOk(doc) ==>
              && Rendered(doc, |Children(doc)|).Some?
              && DocumentToMarkdown(doc) ==
                   Ok(if Children(doc) == [] then "" else T.Join(Rendered(doc, |Children(doc)|).value, "\n\n") + "\n\n")
    ensures DocumentToMarkdown(doc) == Err(Refused) <==> !ValidDocument(doc)
    ensures DocumentToMarkdown(doc) == Err(StartNotAnInteger) <==> ValidDocument(doc) && !StartsOk(doc)
  {
    RendersExactly(doc);
    if ValidDocument(doc) && StartsOk(doc) { ContainerText(doc); }
  }

  /******* the fence *******/

  lemma {:induction false} LeadReads(s: string)
    ensures forall k | 0 <= k < CodeFence.Lead(s) :: s[k] == '`'
    ensures CodeFence.Lead(s) < |s| ==> s[CodeFence.Lead(s)] != '`'
  {
    if s != "" && s[0] == '`' {
      LeadReads(s[1..]);
      forall k | 0 <= k < CodeFence.Lead(s) ensures s[k] == '`' {
        if k > 0 { assert s[k] == s[1..][k - 1]; }
      }
    }
  }

  lemma {:induction false} LongestRunMet(s: string)
    ensures CodeFence.LongestRun(s) > 0 ==> exists i :: 0 <= i < |s| && CodeFence.Lead(s[i..]) == CodeFence.LongestRun(s)
  {
    if s != "" {
      LongestRunMet(s[1..]);
      if CodeFence.Lead(s) > CodeFence.LongestRun(s[1..]) {
        assert s[0..] == s;
      } else if CodeFence.LongestRun(s[1..]) > 0 {
        var i :| 0 <= i < |s[1..]| && CodeFence.Lead(s[1..][i..]) == CodeFence.LongestRun(s[1..]);
        assert s[1..][i..] == s[i + 1..];
      }
    }
  }

  predicate RunAt(s: string, i: nat, n: nat) {
    i + n <= |s| && forall k | i <= k < i + n :: s[k] == '`'
  }

  predicate HasRun(s: string, n: nat) {
    exists i: nat :: i <= |s| && RunAt(s, i, n)
  }

  lemma {:induction false} RunLeads(s: string, n: nat)
    requires RunAt(s, 0, n)
    ensures CodeFence.Lead(s) >= n
  {
    if n > 0 {
      assert forall k | 0 <= k < n - 1 :: s[1..][k] == s[k + 1];
      RunLeads(s[1..], n - 1);
    }
  }

  lemma RunBounded(s: string, n: nat)
    requires HasRun(s, n)
    ensures CodeFence.LongestRun(s) >= n
  {
    var i: nat :| i <= |s| && RunAt(s, i, n);
    assert forall k | 0 <= k < n :: s[i..][k] == s[i + k];
    RunLeads(s[i..], n);
    CodeFence.RunInSuffix(s, i);
  }

  lemma LongestRunHad(s: string)
    requires CodeFence.LongestRun(s) > 0
    ensures HasRun(s, CodeFence.LongestRun(s))
  {
    LongestRunMet(s);
    var i :| 0 <= i < |s| && CodeFence.Lead(s[i..]) == CodeFence.LongestRun(s);
    LeadReads(s[i..]);
    assert forall k | i <= k < i + CodeFence.LongestRun(s) :: s[k] == s[i..][k - i];
    assert RunAt(s, i, CodeFence.LongestRun(s));
  }

  // A fence is of at least three backticks, longer than any run of them in the text, and by one only if longer than three.
  lemma FenceWidthExactly(value: string)
    ensures var width := CodeFence.FenceWidth(value);
            && width >= 3 && CodeFence.Fence(value) == T.Repeat('`', width)
            && !HasRun(value, width) && (width > 3 ==> HasRun(value, width - 1))
  {
    var width := CodeFence.FenceWidth(value);
    if HasRun(value, width) { RunBounded(value, width); }
    if width > 3 { LongestRunHad(value); }
  }
}
