/** The rich-document schema, its worklist validator, and the text projections. */
module Document {
  import opened Wrappers
  import opened Json
  import T = Text

  predicate TextBlock(kind: string) { kind == "paragraph" || kind == "heading" || kind == "codeBlock" }

  predicate ListKind(kind: string) { kind == "bulletList" || kind == "orderedList" }

  predicate Container(kind: string) { kind == "doc" || kind == "blockquote" || kind == "listItem" || ListKind(kind) }

  predicate Media(kind: string) { kind == "image" || kind == "audio" || kind == "video" }

  predicate Leaf(kind: string) { kind == "text" || kind == "hardBreak" || kind == "horizontalRule" || Media(kind) }

  predicate Supported(kind: string) { TextBlock(kind) || Container(kind) || Leaf(kind) }

  predicate MarkKind(kind: string) {
    kind == "bold" || kind == "italic" || kind == "strike" || kind == "code" || kind == "underline" || kind == "subscript"
    || kind == "superscript"
  }

  // `node.get("type")`; no supported kind is empty, so a type that is not text reads as unsupported.
  function Kind(node: Json): string {
    if node.JObj? && Get(node.fields, "type").JStr? then Get(node.fields, "type").s else ""
  }

  function Children(node: Json): (r: seq<Json>)
    ensures forall i | 0 <= i < |r| :: r[i] < node
  {
    if node.JObj? && "content" in node.fields && node.fields["content"].JArr? then node.fields["content"].items else []
  }

  // `node.get("attrs") or {}`, when that is an object.
  function Attrs(node: Json): Option<map<string, Json>>
    requires node.JObj?
  {
    var a := Get(node.fields, "attrs");
    if !Truthy(a) then Some(map[]) else if a.JObj? then Some(a.fields) else None
  }

  predicate IdChar(c: char) {
    'a' <= c <= 'z' || 'A' <= c <= 'Z' || '0' <= c <= '9' || c == '_' || c == '.' || c == ':' || c == '-'
  }

  predicate AssetId(j: Json) {
    && j.JStr? && 1 <= |j.s| <= 240 && (forall c | c in j.s :: IdChar(c))
    && j.s[0] != '_' && j.s[0] != '.' && j.s[0] != ':' && j.s[0] != '-'
  }

  predicate Descriptive(j: Json) { j.JNull? || (j.JStr? && |j.s| <= 200) }

  predicate MediaAttrsOk(kind: string, attrs: map<string, Json>) {
    && (forall k | k in attrs :: k == "asset_id" || k == "title" || (k == "alt" && kind == "image"))
    && "asset_id" in attrs && AssetId(attrs["asset_id"])
    && forall k | k in attrs && k != "asset_id" :: Descriptive(attrs[k])
  }

  predicate AttrsOk(kind: string, attrs: map<string, Json>) {
    && (Media(kind) ==> MediaAttrsOk(kind, attrs))
    && (kind == "heading" ==> GetOr(attrs, "level", JInt(1)).JInt? && 1 <= GetOr(attrs, "level", JInt(1)).i <= 6)
    && (kind == "orderedList" ==> GetOr(attrs, "start", JInt(1)).JInt?)
    && (kind == "codeBlock" ==> !Truthy(Get(attrs, "language")) || Get(attrs, "language").JStr?)
  }

  predicate ChildOk(kind: string, child: Json) {
    && child.JObj?
    && (TextBlock(kind) ==> Kind(child) == "text" || Kind(child) == "hardBreak")
    && (Container(kind) ==> Kind(child) != "text" && Kind(child) != "hardBreak" && Kind(child) != "doc")
    && (ListKind(kind) ==> Kind(child) == "listItem")
  }

  predicate MarksOk(marks: Json) {
    marks.JArr? && forall m | m in marks.items :: MarkKind(Kind(m))
  }

  // Every check the validator makes on one node, its children's own nodes aside.
  predicate NodeOk(node: Json) {
    && node.JObj? && Supported(Kind(node))
    && GetOr(node.fields, "content", JArr([])).JArr?
    && (Leaf(Kind(node)) ==> Children(node) == [])
    && (if Kind(node) == "text" then Get(node.fields, "text").JStr? else "text" !in node.fields)
    && Attrs(node).Some? && AttrsOk(Kind(node), Attrs(node).value)
    && MarksOk(GetOr(node.fields, "marks", JArr([])))
    && forall c | c in Children(node) :: ChildOk(Kind(node), c)
  }

  // The schema: the check holds at every node of the tree.
  predicate ValidTree(node: Json)
    decreases node
  {
    NodeOk(node) && forall i | 0 <= i < |Children(node)| :: ValidTree(Children(node)[i])
  }

  predicate ValidDocument(doc: Json) {
    Kind(doc) == "doc" && ValidTree(doc)
  }

  /******* the worklist *******/

  function Size(node: Json): (n: nat)
    ensures n >= 1
    decreases node, 0
  {
    1 + SizeOfChildren(node, |Children(node)|)
  }

  function SizeOfChildren(node: Json, n: nat): nat
    requires n <= |Children(node)|
    decreases node, 0, n
  {
    if n == 0 then 0 else SizeOfChildren(node, n - 1) + Size(Children(node)[n - 1])
  }

  function SizeOfAll(nodes: seq<Json>): nat {
    if nodes == [] then 0 else SizeOfAll(nodes[..|nodes| - 1]) + Size(nodes[|nodes| - 1])
  }

  lemma {:induction false} SizeOfPrefix(node: Json, n: nat)
    requires n <= |Children(node)|
    ensures SizeOfAll(Children(node)[..n]) == SizeOfChildren(node, n)
  {
    if n > 0 {
      SizeOfPrefix(node, n - 1);
      assert Children(node)[..n][..n - 1] == Children(node)[..n - 1];
    }
  }

  lemma {:induction false} SizeConcat(a: seq<Json>, b: seq<Json>)
    ensures SizeOfAll(a + b) == SizeOfAll(a) + SizeOfAll(b)
  {
    if b == [] {
      assert a + b == a;
    } else {
      SizeConcat(a, b[..|b| - 1]);
      assert (a + b)[..|a + b| - 1] == a + b[..|b| - 1];
    }
  }

  predicate AllValid(nodes: seq<Json>) {
    forall n | n in nodes :: ValidTree(n)
  }

  // Looking at one node of the stack: it is checked, and its children take its place.
  lemma ExpandNode(front: seq<Json>, node: Json)
    ensures AllValid(front + [node]) <==> NodeOk(node) && AllValid(front + Children(node))
    ensures SizeOfAll(front + Children(node)) < SizeOfAll(front + [node])
  {
    SizeConcat(front, Children(node));
    SizeConcat(front, [node]);
    SizeOfPrefix(node, |Children(node)|);
    assert Children(node)[..|Children(node)|] == Children(node);
    assert SizeOfAll([node]) == Size(node) by { assert [node][..0] == []; }
    assert AllValid(front + [node]) <==> AllValid(front) && ValidTree(node);
    assert AllValid(front + Children(node)) <==> AllValid(front) && AllValid(Children(node));
    assert ValidTree(node) <==> NodeOk(node) && AllValid(Children(node));
  }

  // The stack of nodes still to look at: it terminates, and accepts exactly the trees that meet the schema everywhere.
  method Validate(doc: Json) returns (accepted: bool)
    ensures accepted <==> ValidDocument(doc)
  {
    if Kind(doc) != "doc" { return false; }
    var pending := [doc];
    while pending != []
      invariant ValidTree(doc) <==> AllValid(pending)
      decreases SizeOfAll(pending)
    {
      var node, front := pending[|pending| - 1], pending[..|pending| - 1];
      assert pending == front + [node];
      ExpandNode(front, node);
      if !NodeOk(node) { return false; }
      pending := front + Children(node);
    }
    return true;
  }

  /******* projections: the requires is what validation establishes, and it makes every lookup in them defined *******/

  function AttrText(attrs: map<string, Json>, key: string): seq<string> {
    if key in attrs && attrs[key].JStr? then [attrs[key].s] else []
  }

  function MediaPlaceholder(node: Json): string
    requires ValidTree(node)
  {
    T.Join(["[" + Kind(node) + " media not embedded]"] + AttrText(Attrs(node).value, "title") + AttrText(Attrs(node).value, "alt"), "\n")
  }

  function Flat(parts: seq<string>): string {
    if parts == [] then "" else Flat(parts[..|parts| - 1]) + parts[|parts| - 1]
  }

  function InlineText(node: Json, placeholders: bool): string
    requires ValidTree(node)
    decreases node, 1
  {
    if Media(Kind(node)) then (if placeholders then MediaPlaceholder(node) else "")
    else if Kind(node) == "text" then node.fields["text"].s
    else if Kind(node) == "hardBreak" then "\n"
    else Flat(InlineParts(node, placeholders))
  }

  function InlineParts(node: Json, placeholders: bool): (parts: seq<string>)
    requires ValidTree(node)
    ensures |parts| == |Children(node)|
    decreases node, 0
  {
    seq(|Children(node)|, i requires 0 <= i < |Children(node)| => InlineText(Children(node)[i], placeholders))
  }

  function TextBlocks(node: Json, placeholders: bool): seq<string>
    requires ValidTree(node)
    decreases node, 0
  {
    if TextBlock(Kind(node)) then [InlineText(node, placeholders)]
    else if Media(Kind(node)) && placeholders then [MediaPlaceholder(node)]
    else BlocksOfChildren(node, placeholders, |Children(node)|)
  }

  function BlocksOfChildren(node: Json, placeholders: bool, n: nat): seq<string>
    requires ValidTree(node) && n <= |Children(node)|
    decreases node, 0, n
  {
    if n == 0 then [] else BlocksOfChildren(node, placeholders, n - 1) + TextBlocks(Children(node)[n - 1], placeholders)
  }

  function PlainText(doc: Json, placeholders: bool): string
    requires ValidDocument(doc)
  {
    T.Join(TextBlocks(doc, placeholders), "\n")
  }

  /******* no text is lost *******/

  lemma {:induction false} FlatConcat(a: seq<string>, b: seq<string>)
    ensures Flat(a + b) == Flat(a) + Flat(b)
  {
    if b == [] {
      assert a + b == a;
    } else {
      FlatConcat(a, b[..|b| - 1]);
      assert (a + b)[..|a + b| - 1] == a + b[..|b| - 1];
    }
  }

  // The text blocks of a block, one after another, are all the text inside it, in order.
  lemma {:induction false} BlocksLoseNothing(node: Json, placeholders: bool)
    requires ValidTree(node) && Kind(node) != "text" && Kind(node) != "hardBreak"
    ensures Flat(TextBlocks(node, placeholders)) == InlineText(node, placeholders)
    decreases node, 0
  {
    if TextBlock(Kind(node)) {
      FlatOne(InlineText(node, placeholders));
    } else if Media(Kind(node)) {
      if placeholders { FlatOne(MediaPlaceholder(node)); }
    } else {
      ChildBlocksLoseNothing(node, placeholders, |Children(node)|);
      assert InlineParts(node, placeholders)[..|Children(node)|] == InlineParts(node, placeholders);
    }
  }

  lemma FlatOne(s: string)
    ensures Flat([s]) == s
  {
    assert [s][..0] == [];
  }

  lemma BlockChild(node: Json, i: nat)
    requires ValidTree(node) && !TextBlock(Kind(node)) && i < |Children(node)|
    ensures ValidTree(Children(node)[i]) && Kind(Children(node)[i]) != "text" && Kind(Children(node)[i]) != "hardBreak"
  {
    assert ChildOk(Kind(node), Children(node)[i]);
  }

  lemma {:induction false} ChildBlocksLoseNothing(node: Json, placeholders: bool, n: nat)
    requires ValidTree(node) && !TextBlock(Kind(node)) && n <= |Children(node)|
    ensures Flat(BlocksOfChildren(node, placeholders, n)) == Flat(InlineParts(node, placeholders)[..n])
    decreases node, 0, n
  {
    if n > 0 {
      ChildBlocksLoseNothing(node, placeholders, n - 1);
      BlockChild(node, n - 1);
      BlocksLoseNothing(Children(node)[n - 1], placeholders);
      FlatConcat(BlocksOfChildren(node, placeholders, n - 1), TextBlocks(Children(node)[n - 1], placeholders));
      FlatNext(InlineParts(node, placeholders), n - 1);
    }
  }

  lemma FlatNext(parts: seq<string>, n: nat)
    requires n < |parts|
    ensures Flat(parts[..n + 1]) == Flat(parts[..n]) + parts[n]
  {
    assert parts[..n + 1][..n] == parts[..n];
  }

  lemma {:induction false} JoinedLength(parts: seq<string>)
    ensures |T.Join(parts, "\n")| == |Flat(parts)| + if parts == [] then 0 else |parts| - 1
    decreases |parts|
  {
    if parts != [] {
      JoinedLength(parts[1..]);
      FlatConcat([parts[0]], parts[1..]);
      FlatOne(parts[0]);
      assert parts == [parts[0]] + parts[1..];
    }
  }

  // Plain text adds one line feed between text blocks to the document's text, and nothing else.
  lemma PlainTextAddsSeparators(doc: Json, placeholders: bool)
    requires ValidDocument(doc)
    ensures var blocks := TextBlocks(doc, placeholders);
            && Flat(blocks) == InlineText(doc, placeholders)
            && |PlainText(doc, placeholders)| == |InlineText(doc, placeholders)| + if blocks == [] then 0 else |blocks| - 1
  {
    BlocksLoseNothing(doc, placeholders);
    JoinedLength(TextBlocks(doc, placeholders));
  }
}
