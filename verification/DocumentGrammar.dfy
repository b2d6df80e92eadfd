/** The schema a second time, as a grammar: for each kind of node, what it may hold. */
module DocumentGrammar {
  import opened Wrappers
  import opened Json
  import opened Document

  const INLINE: seq<string> := ["text", "hardBreak"]

  const BLOCKS: seq<string> :=
    ["paragraph", "heading", "codeBlock", "blockquote", "bulletList", "orderedList", "listItem", "horizontalRule", "image", "audio", "video"]

  const MARKS: seq<string> := ["bold", "italic", "strike", "code", "underline", "subscript", "superscript"]

  // The kinds of children a kind of node may have.
  function Holds(kind: string): seq<string> {
    if kind in ["paragraph", "heading", "codeBlock"] then INLINE
    else if kind in ["bulletList", "orderedList"] then ["listItem"]
    else if kind in ["doc", "blockquote", "listItem"] then BLOCKS
    else []
  }

  predicate HasType(j: Json, kind: string) {
    j.JObj? && "type" in j.fields && j.fields["type"] == JStr(kind)
  }

  predicate TypeAmong(j: Json, kinds: seq<string>) {
    exists i | 0 <= i < |kinds| :: HasType(j, kinds[i])
  }

  predicate Alphanumeric(c: char) { 'a' <= c <= 'z' || 'A' <= c <= 'Z' || '0' <= c <= '9' }

  // A letter or digit, then at most 239 letters, digits, underscores, full stops, colons and hyphens.
  predicate Reference(j: Json) {
    && j.JStr? && 0 < |j.s| < 241 && Alphanumeric(j.s[0])
    && forall i | 0 < i < |j.s| :: Alphanumeric(j.s[i]) || j.s[i] in "_.:-"
  }

  // An optional description of at most 200 characters.
  predicate Note(attrs: map<string, Json>, key: string) {
    key !in attrs || attrs[key] == JNull || (attrs[key].JStr? && |attrs[key].s| < 201)
  }

  predicate KindAttrs(kind: string, attrs: map<string, Json>) {
    if kind in ["image", "audio", "video"] then
      && attrs.Keys <= (if kind == "image" then {"asset_id", "title", "alt"} else {"asset_id", "title"})
      && "asset_id" in attrs && Reference(attrs["asset_id"]) && Note(attrs, "title") && Note(attrs, "alt")
    else if kind == "heading" then "level" in attrs ==> exists n :: attrs["level"] == JInt(n) && 0 < n < 7
    else if kind == "orderedList" then "start" in attrs ==> attrs["start"].JInt?
    else if kind == "codeBlock" then "language" in attrs ==> attrs["language"].JStr? || !Truthy(attrs["language"])
    else true
  }

  // The optional fields: attributes fit for the kind, where nothing and anything that counts as false read as none; a list
  // of known marks; and a text, which is there exactly in text nodes.
  predicate FieldsFit(kind: string, fields: map<string, Json>) {
    && (if "attrs" in fields && Truthy(fields["attrs"]) then fields["attrs"].JObj? && KindAttrs(kind, fields["attrs"].fields)
        else KindAttrs(kind, map[]))
    && ("marks" in fields ==> fields["marks"].JArr? && forall m | m in fields["marks"].items :: TypeAmong(m, MARKS))
    && (kind == "text" ==> "text" in fields && fields["text"].JStr?)
    && (kind != "text" ==> "text" !in fields)
  }

  // A node of the given kind that conforms to the grammar, with all that is inside it.
  predicate Conforms(node: Json, kind: string)
    decreases node, 0
  {
    && HasType(node, kind) && FieldsFit(kind, node.fields)
    && ("content" in node.fields ==>
          && node.fields["content"].JArr?
          && forall i | 0 <= i < |node.fields["content"].items| :: ConformsToOne(node.fields["content"].items[i], Holds(kind)))
  }

  predicate ConformsToOne(node: Json, kinds: seq<string>)
    decreases node, 1
  {
    exists k | 0 <= k < |kinds| :: Conforms(node, kinds[k])
  }

  /******* one node *******/

  predicate InList(kind: string, kinds: seq<string>) {
    exists i | 0 <= i < |kinds| :: kinds[i] == kind
  }

  lemma TypeIsKind(node: Json, kind: string)
    requires kind != ""
    ensures HasType(node, kind) <==> Kind(node) == kind
  {}

  lemma BlocksExactly(kind: string)
    ensures InList(kind, BLOCKS) <==> Supported(kind) && kind != "text" && kind != "hardBreak" && kind != "doc"
  {
    assert BLOCKS[0] == "paragraph" && BLOCKS[1] == "heading" && BLOCKS[2] == "codeBlock" && BLOCKS[3] == "blockquote";
    assert BLOCKS[4] == "bulletList" && BLOCKS[5] == "orderedList" && BLOCKS[6] == "listItem" && BLOCKS[7] == "horizontalRule";
    assert BLOCKS[8] == "image" && BLOCKS[9] == "audio" && BLOCKS[10] == "video";
  }

  lemma MarksExactly(m: Json)
    ensures TypeAmong(m, MARKS) <==> MarkKind(Kind(m))
  {
    assert MARKS[0] == "bold" && MARKS[1] == "italic" && MARKS[2] == "strike" && MARKS[3] == "code" && MARKS[4] == "underline";
    assert MARKS[5] == "subscript" && MARKS[6] == "superscript";
    if TypeAmong(m, MARKS) {
      var i :| 0 <= i < |MARKS| && HasType(m, MARKS[i]);
      TypeIsKind(m, MARKS[i]);
    }
    if MarkKind(Kind(m)) { TypeIsKind(m, Kind(m)); }
  }

  lemma ReferenceExactly(j: Json)
    ensures Reference(j) <==> AssetId(j)
  {
    if AssetId(j) {
      assert j.s[0] in j.s;
      assert forall i | 0 <= i < |j.s| :: j.s[i] in j.s;
    }
  }
  lemma MediaExactly(kind: string, attrs: map<string, Json>)
    requires Media(kind)
    ensures KindAttrs(kind, attrs) <==> MediaAttrsOk(kind, attrs)
  {
    assert kind in ["image", "audio", "video"];
    if "asset_id" in attrs { ReferenceExactly(attrs["asset_id"]); }
    var allowed := if kind == "image" then {"asset_id", "title", "alt"} else {"asset_id", "title"};
    assert attrs.Keys <= allowed <==> forall k | k in attrs :: k == "asset_id" || k == "title" || (k == "alt" && kind == "image");
  }

  lemma AttrsExactly(kind: string, attrs: map<string, Json>)
    ensures KindAttrs(kind, attrs) <==> AttrsOk(kind, attrs)
  {
    assert Media(kind) <==> kind in ["image", "audio", "video"];
    if Media(kind) { MediaExactly(kind, attrs); }
  }

  lemma FieldsExactly(node: Json)
    requires node.JObj?
    ensures FieldsFit(Kind(node), node.fields) <==>
              && (if Kind(node) == "text" then Get(node.fields, "text").JStr? else "text" !in node.fields)
              && Attrs(node).Some? && AttrsOk(Kind(node), Attrs(node).value)
              && MarksOk(GetOr(node.fields, "marks", JArr([])))
  {
    if Attrs(node).Some? { AttrsExactly(Kind(node), Attrs(node).value); }
    forall m ensures TypeAmong(m, MARKS) <==> MarkKind(Kind(m)) { MarksExactly(m); }
  }

  /******* children *******/

  lemma HoldsExactly(kind: string, child: Json)
    requires Supported(kind) && !Leaf(kind) && child.JObj? && Supported(Kind(child))
    ensures ChildOk(kind, child) <==> InList(Kind(child), Holds(kind))
  {
    BlocksExactly(Kind(child));
    assert INLINE[0] == "text" && INLINE[1] == "hardBreak";
    if TextBlock(kind) {
      assert Holds(kind) == INLINE;
    } else if ListKind(kind) {
      assert Holds(kind) == ["listItem"] && ["listItem"][0] == "listItem";
    } else {
      assert Holds(kind) == BLOCKS;
    }
  }

  lemma LeafHoldsNothing(kind: string)
    requires Leaf(kind)
    ensures Holds(kind) == []
  {}

  lemma Held(kind: string)
    ensures forall i | 0 <= i < |Holds(kind)| :: Supported(Holds(kind)[i]) && Holds(kind)[i] != ""
  {
    forall i | 0 <= i < |BLOCKS| ensures Supported(BLOCKS[i]) && BLOCKS[i] != "" { BlocksExactly(BLOCKS[i]); }
    assert INLINE[0] == "text" && INLINE[1] == "hardBreak";
  }

  // What the validator asks of a node beside the kinds of its children, and those kinds.
  lemma NodeExactly(node: Json)
    ensures NodeOk(node) <==>
              && node.JObj? && Supported(Kind(node)) && FieldsFit(Kind(node), node.fields)
              && ("content" in node.fields ==> node.fields["content"].JArr?)
              && (Leaf(Kind(node)) ==> Children(node) == [])
              && forall i | 0 <= i < |Children(node)| :: ChildOk(Kind(node), Children(node)[i])
  {
    if node.JObj? { FieldsExactly(node); }
    assert forall i | 0 <= i < |Children(node)| :: Children(node)[i] in Children(node);
  }

  // A child that conforms to one of the kinds held is a valid one that may stand there.
  lemma {:induction false} ChildExactly(kind: string, child: Json)
    requires Supported(kind)
    ensures ConformsToOne(child, Holds(kind)) <==> !Leaf(kind) && ChildOk(kind, child) && ValidTree(child)
    decreases child, 1
  {
    Held(kind);
    if Leaf(kind) { LeafHoldsNothing(kind); }
    if ConformsToOne(child, Holds(kind)) {
      var k :| 0 <= k < |Holds(kind)| && Conforms(child, Holds(kind)[k]);
      ConformsExactly(child, Holds(kind)[k]);
      HoldsExactly(kind, child);
      assert InList(Kind(child), Holds(kind));
    }
    if !Leaf(kind) && ChildOk(kind, child) && ValidTree(child) {
      HoldsExactly(kind, child);
      var k :| 0 <= k < |Holds(kind)| && Holds(kind)[k] == Kind(child);
      ConformsExactly(child, Holds(kind)[k]);
    }
  }

  // The validator's schema is this grammar: a node conforms to a kind of it exactly when it is a valid tree of that kind.
  lemma {:induction false} ConformsExactly(node: Json, kind: string)
    requires Supported(kind)
    ensures Conforms(node, kind) <==> ValidTree(node) && Kind(node) == kind
    decreases node, 0
  {
    TypeIsKind(node, kind);
    NodeExactly(node);
    if Kind(node) == kind {
      forall i | 0 <= i < |Children(node)|
        ensures ConformsToOne(Children(node)[i], Holds(kind)) <==>
                  !Leaf(kind) && ChildOk(kind, Children(node)[i]) && ValidTree(Children(node)[i])
      {
        ChildExactly(kind, Children(node)[i]);
      }
      assert Children(node) == [] || Children(node)[0] in Children(node);
      assert Conforms(node, kind) <==>
               && FieldsFit(kind, node.fields) && ("content" in node.fields ==> node.fields["content"].JArr?)
               && forall i | 0 <= i < |Children(node)| :: ConformsToOne(Children(node)[i], Holds(kind));
    }
  }

  // The accepted documents are those of the grammar's first kind.
  lemma DocumentsExactly(doc: Json)
    ensures ValidDocument(doc) <==> Conforms(doc, "doc")
  {
    ConformsExactly(doc, "doc");
  }
}

/** The text of a node is that of its leaves, in reading order. */
module DocumentTextLaws {
  import opened Wrappers
  import opened Json
  import opened Document
  import T = Text

  // The nodes of a tree that hold no others by their kind, from left to right.
  function Leaves(node: Json): seq<Json>
    decreases node, 1
  {
    if Leaf(Kind(node)) then [node] else Together(ChildLeaves(node))
  }

  function ChildLeaves(node: Json): (lists: seq<seq<Json>>)
    ensures |lists| == |Children(node)|
    decreases node, 0
  {
    seq(|Children(node)|, i requires 0 <= i < |Children(node)| => Leaves(Children(node)[i]))
  }

  function Together(lists: seq<seq<Json>>): seq<Json> {
    if lists == [] then [] else Together(lists[..|lists| - 1]) + lists[|lists| - 1]
  }

  // One line for each description that is a text.
  function Described(attrs: Json, key: string): string {
    if attrs.JObj? && key in attrs.fields && attrs.fields[key].JStr? then "\n" + attrs.fields[key].s else ""
  }

  // A text node gives its text and a hard break a line feed; a rule gives nothing; and a media node either nothing, or a
  // line that says what is not embedded, followed by its title and its alternative text.
  function LeafText(leaf: Json, placeholders: bool): string {
    if !leaf.JObj? || "type" !in leaf.fields || !leaf.fields["type"].JStr? then ""
    else
      var kind := leaf.fields["type"].s;
      if kind == "text" then (if "text" in leaf.fields && leaf.fields["text"].JStr? then leaf.fields["text"].s else "")
      else if kind == "hardBreak" then "\n"
      else if kind == "horizontalRule" || !placeholders then ""
      else
        var attrs := if "attrs" in leaf.fields then leaf.fields["attrs"] else JNull;
        "[" + kind + " media not embedded]" + Described(attrs, "title") + Described(attrs, "alt")
  }

  function LeafTexts(leaves: seq<Json>, placeholders: bool): string {
    Flat(seq(|leaves|, i requires 0 <= i < |leaves| => LeafText(leaves[i], placeholders)))
  }

  lemma LeafTextsConcat(a: seq<Json>, b: seq<Json>, placeholders: bool)
    ensures LeafTexts(a + b, placeholders) == LeafTexts(a, placeholders) + LeafTexts(b, placeholders)
  {
    var x := seq(|a|, i requires 0 <= i < |a| => LeafText(a[i], placeholders));
    var y := seq(|b|, i requires 0 <= i < |b| => LeafText(b[i], placeholders));
    assert seq(|a + b|, i requires 0 <= i < |a + b| => LeafText((a + b)[i], placeholders)) == x + y;
    FlatConcat(x, y);
  }

  lemma OneLine(h: string)
    ensures T.Join([h], "\n") == h
  {}

  lemma TwoLines(h: string, x: string)
    ensures T.Join([h, x], "\n") == h + ("\n" + x)
  {
    assert [h, x][1..] == [x];
    OneLine(x);
    assert h + "\n" + x == h + ("\n" + x);
  }

  lemma ThreeLines(h: string, x: string, y: string)
    ensures T.Join([h, x, y], "\n") == h + ("\n" + x) + ("\n" + y)
  {
    assert [h, x, y][1..] == [x, y];
    TwoLines(x, y);
    assert h + "\n" + (x + ("\n" + y)) == h + ("\n" + x) + ("\n" + y);
  }

  lemma PlaceholderReads(leaf: Json)
    requires ValidTree(leaf) && Media(Kind(leaf))
    ensures MediaPlaceholder(leaf) == LeafText(leaf, true)
  {
    var attrs, h := Attrs(leaf).value, "[" + Kind(leaf) + " media not embedded]";
    var a, b := AttrText(attrs, "title"), AttrText(attrs, "alt");
    if a == [] && b == [] {
      assert [h] + a + b == [h];
    } else if b == [] {
      assert [h] + a + b == [h, a[0]];
      TwoLines(h, a[0]);
    } else if a == [] {
      assert [h] + a + b == [h, b[0]];
      TwoLines(h, b[0]);
    } else {
      assert [h] + a + b == [h, a[0], b[0]];
      ThreeLines(h, a[0], b[0]);
    }
  }

  lemma LeafReads(leaf: Json, placeholders: bool)
    requires ValidTree(leaf) && Leaf(Kind(leaf))
    ensures InlineText(leaf, placeholders) == LeafText(leaf, placeholders)
  {
    if Media(Kind(leaf)) {
      PlaceholderReads(leaf);
    } else if Kind(leaf) == "horizontalRule" {
      assert InlineParts(leaf, placeholders) == [];
    }
  }

  lemma ChildPart(node: Json, placeholders: bool, i: nat)
    requires ValidTree(node) && i < |Children(node)|
    ensures ValidTree(Children(node)[i]) && Children(node)[i] < node
    ensures InlineParts(node, placeholders)[i] == InlineText(Children(node)[i], placeholders)
    ensures ChildLeaves(node)[i] == Leaves(Children(node)[i])
  {}

  lemma NotALeaf(node: Json, placeholders: bool)
    requires ValidTree(node) && !Leaf(Kind(node))
    ensures InlineText(node, placeholders) == Flat(InlineParts(node, placeholders)) && Leaves(node) == Together(ChildLeaves(node))
  {}

  lemma {:induction false} TogetherReads(parts: seq<string>, lists: seq<seq<Json>>, placeholders: bool)
    requires |parts| == |lists| && forall i | 0 <= i < |parts| :: parts[i] == LeafTexts(lists[i], placeholders)
    ensures Flat(parts) == LeafTexts(Together(lists), placeholders)
  {
    if lists != [] {
      var n := |lists| - 1;
      TogetherReads(parts[..n], lists[..n], placeholders);
      LeafTextsConcat(Together(lists[..n]), lists[n], placeholders);
    }
  }

  // Nothing else contributes: the text of a node is that of its leaves, one after another.
  lemma {:induction false} LeavesRead(node: Json, placeholders: bool)
    requires ValidTree(node)
    ensures InlineText(node, placeholders) == LeafTexts(Leaves(node), placeholders)
    decreases node
  {
    if Leaf(Kind(node)) {
      LeafReads(node, placeholders);
      OneLeaf(node, placeholders);
    } else {
      var parts := InlineParts(node, placeholders);
      var lists := ChildLeaves(node);
      forall i | 0 <= i < |parts| ensures parts[i] == LeafTexts(lists[i], placeholders) {
        ChildPart(node, placeholders, i);
        LeavesRead(Children(node)[i], placeholders);
      }
      TogetherReads(parts, lists, placeholders);
      NotALeaf(node, placeholders);
    }
  }

  lemma OneLeaf(leaf: Json, placeholders: bool)
    ensures LeafTexts([leaf], placeholders) == LeafText(leaf, placeholders)
  {
    FlatOne(LeafText(leaf, placeholders));
    assert seq(1, i requires 0 <= i < 1 => LeafText([leaf][i], placeholders)) == [LeafText(leaf, placeholders)];
  }
}
