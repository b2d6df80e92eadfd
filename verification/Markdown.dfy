/**
 The Markdown layout of block quotes, lists and code fences as functions of the text inside them,
 each with a reader that takes the layout off again.
 */
module MarkdownLayout {
  import opened Wrappers
  import T = Text

  /******* block quotes *******/

  function QuoteLine(l: string): string { if l == "" then ">" else "> " + l }

  function UnquoteLine(l: string): string { if |l| <= 1 then "" else l[2..] }

  function Mapped(f: string -> string, ls: seq<string>): (r: seq<string>)
    ensures |r| == |ls| && forall i | 0 <= i < |ls| :: r[i] == f(ls[i])
  {
    seq(|ls|, i requires 0 <= i < |ls| => f(ls[i]))
  }

  function Quote(content: string): string {
    T.Join(Mapped(QuoteLine, T.Split(content)), "\n")
  }

  function Unquote(text: string): string {
    T.Join(Mapped(UnquoteLine, T.Split(text)), "\n")
  }

  lemma SplitQuote(content: string)
    ensures T.Split(Quote(content)) == Mapped(QuoteLine, T.Split(content))
  {
    var lines := T.Split(content);
    var quoted := Mapped(QuoteLine, lines);
    forall l | l in quoted ensures '\n' !in l {
      var i :| 0 <= i < |quoted| && quoted[i] == l;
      assert '\n' !in lines[i] && '\n' !in "> ";
      assert forall c | c in "> " + lines[i] :: c in "> " || c in lines[i];
    }
    T.SplitJoin(quoted);
  }

  // Taking the prefixes off a rendered quote gives back what was quoted, blank lines included.
  lemma UnquoteQuote(content: string)
    ensures Unquote(Quote(content)) == content
  {
    var lines := T.Split(content);
    SplitQuote(content);
    assert Mapped(UnquoteLine, Mapped(QuoteLine, lines)) == lines;
    T.JoinSplit(content);
  }

  /******* lists *******/

  function Marker(ordered: bool, number: int): string {
    if ordered then T.IntText(number) + ". " else "- "
  }

  // The lines after an item's first, each indented by the width of the marker.
  function Indented(lines: seq<string>, width: nat): string {
    if lines == [] then "" else "\n" + T.Repeat(' ', width) + lines[0] + Indented(lines[1..], width)
  }

  function ListItem(marker: string, text: string): string {
    var lines := T.Split(text);
    marker + lines[0] + Indented(lines[1..], |marker|)
  }

  function ListItems(ordered: bool, start: int, texts: seq<string>): seq<string> {
    seq(|texts|, i requires 0 <= i < |texts| => ListItem(Marker(ordered, start + i), texts[i]))
  }

  function ListText(ordered: bool, start: int, texts: seq<string>): string {
    T.Join(ListItems(ordered, start, texts), "\n")
  }

  // The reader: a line that starts with a space goes on with its item.
  predicate Continues(l: string) { l != "" && l[0] == ' ' }

  function CountContinuing(lines: seq<string>): (n: nat)
    ensures n <= |lines|
  {
    if lines == [] || !Continues(lines[0]) then 0 else 1 + CountContinuing(lines[1..])
  }

  function Groups(lines: seq<string>): seq<seq<string>> {
    if lines == [] then []
    else
      var n := 1 + CountContinuing(lines[1..]);
      [lines[..n]] + Groups(lines[n..])
  }

  function IndexOf(s: string, c: char): (i: nat)
    ensures i <= |s|
  {
    if s == "" || s[0] == c then 0 else 1 + IndexOf(s[1..], c)
  }

  // A bullet marker is two wide, an ordered one ends two after its dot.
  function MarkerWidth(ordered: bool, l: string): nat {
    if ordered then IndexOf(l, '.') + 2 else 2
  }

  function Cut(l: string, width: nat): string { if width <= |l| then l[width..] else "" }

  function ReadItem(ordered: bool, group: seq<string>): string {
    if group == [] then ""
    else
      var width := MarkerWidth(ordered, group[0]);
      T.Join(Mapped(l => Cut(l, width), group), "\n")
  }

  function ReadList(ordered: bool, text: string): seq<string> {
    var groups := Groups(T.Split(text));
    seq(|groups|, i requires 0 <= i < |groups| => ReadItem(ordered, groups[i]))
  }

  // The lines of one rendered item.
  function ItemLines(marker: string, text: string): (r: seq<string>)
    ensures |r| == |T.Split(text)|
  {
    var lines := T.Split(text);
    seq(|lines|, i requires 0 <= i < |lines| => (if i == 0 then marker else T.Repeat(' ', |marker|)) + lines[i])
  }

  predicate MarkerOk(ordered: bool, marker: string) {
    && |marker| >= 2 && '\n' !in marker && marker[0] != ' '
    && (if ordered then marker[|marker| - 2] == '.' && '.' !in marker[..|marker| - 2] else |marker| == 2)
  }

  lemma NumeralMarker(s: string, m: string)
    requires s != "" && (forall c | c in s :: c == '-' || '0' <= c <= '9') && m == s + ". "
    ensures MarkerOk(true, m)
  {
    assert m[..|m| - 2] == s && m[0] == s[0] && s[0] in s;
    assert forall c | c in m :: c in s || c == '.' || c == ' ';
  }

  lemma MarkerIsOk(ordered: bool, number: int)
    ensures MarkerOk(ordered, Marker(ordered, number))
  {
    if ordered { NumeralMarker(T.IntText(number), Marker(true, number)); }
  }

  lemma LineFree(marker: string, l: string)
    requires '\n' !in marker && '\n' !in l
    ensures '\n' !in marker + l
  {
    assert forall c | c in marker + l :: c in marker || c in l;
  }

  lemma {:induction false} IndentedLines(first: string, lines: seq<string>, width: nat)
    requires '\n' !in first && forall l | l in lines :: '\n' !in l
    ensures T.Split(first + Indented(lines, width)) == [first] + seq(|lines|, i requires 0 <= i < |lines| => T.Repeat(' ', width) + lines[i])
    decreases |lines|
  {
    if lines == [] {
      T.SplitFirst(first, "");
      assert first + "" == first;
    } else {
      var next := T.Repeat(' ', width) + lines[0];
      LineFree(T.Repeat(' ', width), lines[0]);
      IndentedLines(next, lines[1..], width);
      T.SplitFirst(first, next + Indented(lines[1..], width));
      assert first + Indented(lines, width) == first + "\n" + (next + Indented(lines[1..], width));
    }
  }

  lemma SplitItem(marker: string, text: string)
    requires '\n' !in marker
    ensures T.Split(ListItem(marker, text)) == ItemLines(marker, text)
  {
    var lines := T.Split(text);
    LineFree(marker, lines[0]);
    IndentedLines(marker + lines[0], lines[1..], |marker|);
  }

  lemma {:induction false} CountAllContinuing(a: seq<string>, b: seq<string>)
    requires (forall i | 0 <= i < |a| :: Continues(a[i])) && (b == [] || !Continues(b[0]))
    ensures CountContinuing(a + b) == |a|
  {
    if a == [] {
      assert a + b == b;
    } else {
      CountAllContinuing(a[1..], b);
      assert (a + b)[1..] == a[1..] + b;
    }
  }

  // An item's lines come off the front as one group.
  lemma GroupOff(item: seq<string>, rest: seq<string>)
    requires item != [] && (forall i | 1 <= i < |item| :: Continues(item[i])) && (rest == [] || !Continues(rest[0]))
    ensures Groups(item + rest) == [item] + Groups(rest)
  {
    CountAllContinuing(item[1..], rest);
    assert (item + rest)[1..] == item[1..] + rest;
    assert (item + rest)[..|item|] == item && (item + rest)[|item|..] == rest;
  }

  lemma ItemShape(ordered: bool, marker: string, text: string)
    requires MarkerOk(ordered, marker)
    ensures var item := ItemLines(marker, text);
            item != [] && !Continues(item[0]) && forall i | 1 <= i < |item| :: Continues(item[i])
  {
    var item := ItemLines(marker, text);
    assert item[0][0] == marker[0];
    forall i | 1 <= i < |item| ensures Continues(item[i]) {
      assert item[i] == T.Repeat(' ', |marker|) + T.Split(text)[i];
      assert item[i][0] == T.Repeat(' ', |marker|)[0];
    }
  }

  lemma {:induction false} IndexOfFirst(s: string, c: char, n: nat)
    requires n < |s| && s[n] == c && c !in s[..n]
    ensures IndexOf(s, c) == n
  {
    if n > 0 {
      assert s[0] in s[..n];
      assert s[1..][..n - 1] == s[..n][1..];
      IndexOfFirst(s[1..], c, n - 1);
    }
  }

  lemma ReadOneItem(ordered: bool, marker: string, text: string)
    requires MarkerOk(ordered, marker)
    ensures ReadItem(ordered, ItemLines(marker, text)) == text
  {
    var lines, item := T.Split(text), ItemLines(marker, text);
    if ordered {
      assert item[0][..|marker| - 2] == marker[..|marker| - 2];
      IndexOfFirst(item[0], '.', |marker| - 2);
    }
    var width := MarkerWidth(ordered, item[0]);
    assert width == |marker|;
    forall i | 0 <= i < |item| ensures Cut(item[i], width) == lines[i] {
      assert item[i] == (if i == 0 then marker else T.Repeat(' ', |marker|)) + lines[i];
    }
    assert Mapped(l => Cut(l, width), item) == lines;
    T.JoinSplit(text);
  }

  function ItemGroups(ordered: bool, start: int, texts: seq<string>): seq<seq<string>>
    decreases |texts|
  {
    if texts == [] then [] else [ItemLines(Marker(ordered, start), texts[0])] + ItemGroups(ordered, start + 1, texts[1..])
  }

  lemma ListFirst(ordered: bool, start: int, texts: seq<string>)
    requires texts != []
    ensures ListText(ordered, start, texts) ==
              if |texts| == 1 then ListItem(Marker(ordered, start), texts[0])
              else ListItem(Marker(ordered, start), texts[0]) + "\n" + ListText(ordered, start + 1, texts[1..])
  {
    var items := ListItems(ordered, start, texts);
    assert items[1..] == ListItems(ordered, start + 1, texts[1..]);
  }

  lemma GroupsStep(whole: string, text: string, item: seq<string>, rest: string)
    requires whole == text + "\n" + rest && T.Split(text) == item
    requires item != [] && !Continues(item[0]) && (forall i | 1 <= i < |item| :: Continues(item[i]))
    requires !Continues(T.Split(rest)[0])
    ensures !Continues(T.Split(whole)[0]) && Groups(T.Split(whole)) == [item] + Groups(T.Split(rest))
  {
    T.SplitConcat(text, rest);
    GroupOff(item, T.Split(rest));
  }

  lemma {:induction false} GroupsOfList(ordered: bool, start: int, texts: seq<string>)
    requires texts != []
    ensures !Continues(T.Split(ListText(ordered, start, texts))[0])
    ensures Groups(T.Split(ListText(ordered, start, texts))) == ItemGroups(ordered, start, texts)
    decreases |texts|
  {
    var marker := Marker(ordered, start);
    var item, text := ItemLines(marker, texts[0]), ListItem(marker, texts[0]);
    ListFirst(ordered, start, texts);
    ItemOfList(ordered, start, texts[0]);
    if |texts| == 1 {
      GroupOff(item, []);
      assert item + [] == item && texts[1..] == [];
    } else {
      var rest := ListText(ordered, start + 1, texts[1..]);
      GroupsOfList(ordered, start + 1, texts[1..]);
      GroupsStep(text + "\n" + rest, text, item, rest);
    }
  }

  lemma ItemOfList(ordered: bool, start: int, text: string)
    ensures var item := ItemLines(Marker(ordered, start), text);
            && T.Split(ListItem(Marker(ordered, start), text)) == item
            && item != [] && !Continues(item[0]) && forall i | 1 <= i < |item| :: Continues(item[i])
  {
    MarkerIsOk(ordered, start);
    SplitItem(Marker(ordered, start), text);
    ItemShape(ordered, Marker(ordered, start), text);
  }

  lemma {:induction false} ReadGroups(ordered: bool, start: int, texts: seq<string>)
    ensures |ItemGroups(ordered, start, texts)| == |texts|
    ensures forall i | 0 <= i < |texts| :: ReadItem(ordered, ItemGroups(ordered, start, texts)[i]) == texts[i]
    decreases |texts|
  {
    if texts != [] {
      MarkerIsOk(ordered, start);
      ReadOneItem(ordered, Marker(ordered, start), texts[0]);
      ReadGroups(ordered, start + 1, texts[1..]);
    }
  }

  // Splitting a rendered list and taking the indents off gives back the text of every item, whatever lists it holds.
  lemma ReadListText(ordered: bool, start: int, texts: seq<string>)
    requires texts != []
    ensures ReadList(ordered, ListText(ordered, start, texts)) == texts
  {
    GroupsOfList(ordered, start, texts);
    ReadGroups(ordered, start, texts);
  }
}

/** The rendered code fence, read back by section 4.5 of CommonMark 0.31.2. */
module CodeFence {
  import opened Wrappers
  import T = Text

  // Leading backticks, and the longest run of them anywhere.
  function Lead(s: string): (n: nat)
    ensures n <= |s|
  {
    if s == "" || s[0] != '`' then 0 else 1 + Lead(s[1..])
  }

  function LongestRun(s: string): nat {
    if s == "" then 0 else if Lead(s) > LongestRun(s[1..]) then Lead(s) else LongestRun(s[1..])
  }

  function FenceWidth(value: string): nat {
    if LongestRun(value) + 1 > 3 then LongestRun(value) + 1 else 3
  }

  function Fence(value: string): string { T.Repeat('`', FenceWidth(value)) }

  function Render(language: string, value: string): string {
    Fence(value) + language + "\n" + value + "\n" + Fence(value)
  }

  /******* the reader *******/

  // A line ends at a line feed, a carriage return, or both in that order.
  function Lines(s: string): (lines: seq<string>)
    ensures lines != []
  {
    if s == "" then [""]
    else if s[0] == '\n' then [""] + Lines(s[1..])
    else if s[0] == '\r' then [""] + Lines(if |s| > 1 && s[1] == '\n' then s[2..] else s[1..])
    else
      var rest := Lines(s[1..]);
      [[s[0]] + rest[0]] + rest[1..]
  }

  predicate Blank(c: char) { c == ' ' || c == '\t' }

  function TrimStart(s: string): string {
    if s == "" || !Blank(s[0]) then s else TrimStart(s[1..])
  }

  function TrimEnd(s: string): string {
    if s == "" || !Blank(s[|s| - 1]) then s else TrimEnd(s[..|s| - 1])
  }

  function Trim(s: string): string { TrimEnd(TrimStart(s)) }

  predicate AllBlank(s: string) { forall c | c in s :: Blank(c) }

  function LeadSpaces(s: string): (n: nat)
    ensures n <= |s|
  {
    if s == "" || s[0] != ' ' then 0 else 1 + LeadSpaces(s[1..])
  }

  // A closing fence: at most three spaces in, at least as many backticks as the opening one, and nothing else.
  predicate Closes(l: string, width: nat) {
    var i := LeadSpaces(l);
    i <= 3 && Lead(l[i..]) >= width && AllBlank(l[i + Lead(l[i..])..])
  }

  function CloseAt(lines: seq<string>, width: nat): (n: nat)
    ensures n <= |lines|
  {
    if lines == [] || Closes(lines[0], width) then 0 else 1 + CloseAt(lines[1..], width)
  }

  datatype Block = Block(info: string, content: seq<string>, after: seq<string>)

  // The code block at the start of a text: its info string, its lines, and what follows the closing fence.
  function Read(text: string): Option<Block> {
    var lines := Lines(text);
    var width := Lead(lines[0]);
    if width < 3 || '`' in lines[0][width..] then None
    else
      var n := CloseAt(lines[1..], width);
      Some(Block(Trim(lines[0][width..]), lines[1..][..n], if n == |lines| - 1 then [] else lines[1..][n + 1..]))
  }

  /******* lines *******/

  predicate EndsInReturn(s: string) { s != "" && s[|s| - 1] == '\r' }

  lemma {:induction false} LinesConcat(a: string, b: string)
    requires !EndsInReturn(a)
    ensures Lines(a + "\n" + b) == Lines(a) + Lines(b)
    decreases |a|
  {
    var s := a + "\n" + b;
    if a == "" {
      assert s[0] == '\n' && s[1..] == b;
    } else if a[0] == '\r' {
      var k := if a[1] == '\n' then 2 else 1;
      assert s[0] == '\r' && s[1] == a[1] && s[k..] == a[k..] + "\n" + b;
      LinesConcat(a[k..], b);
      T.FirstReplaced("", Lines(a[k..]), Lines(b));
    } else {
      assert s[0] == a[0] && s[1..] == a[1..] + "\n" + b;
      LinesConcat(a[1..], b);
      T.FirstReplaced(if a[0] == '\n' then "" else [a[0]] + Lines(a[1..])[0], Lines(a[1..]), Lines(b));
    }
  }

  predicate OneLine(s: string) { '\n' !in s && '\r' !in s }

  lemma {:induction false} LinesOfOne(s: string)
    requires OneLine(s)
    ensures Lines(s) == [s]
  {
    if s != "" {
      LinesOfOne(s[1..]);
      assert s == [s[0]] + s[1..];
    }
  }

  // A carriage return at the end is one more line, and swallows the line feed that comes next.
  lemma {:induction false} LinesOfReturn(a: string)
    ensures |Lines(a + "\r")| == |Lines(a)| + 1
    decreases |a|
  {
    var s := a + "\r";
    if a == "" {
      assert s[1..] == "" && Lines("") == [""];
    } else {
      var k := if a[0] == '\r' && |a| > 1 && a[1] == '\n' then 2 else 1;
      assert s[0] == a[0] && s[k..] == a[k..] + "\r";
      assert |s| > 1 && s[1] == if |a| > 1 then a[1] else '\r';
      LinesOfReturn(a[k..]);
    }
  }

  lemma {:induction false} LinesSwallow(a: string, b: string)
    ensures Lines(a + "\r\n" + b) == Lines(a) + Lines(b)
    decreases |a|
  {
    var s := a + "\r\n" + b;
    if a == "" {
      assert s[0] == '\r' && s[1] == '\n' && s[2..] == b;
    } else {
      var k := if a[0] == '\r' && |a| > 1 && a[1] == '\n' then 2 else 1;
      assert s[0] == a[0] && s[k..] == a[k..] + "\r\n" + b;
      assert |s| > 1 && s[1] == if |a| > 1 then a[1] else '\r';
      LinesSwallow(a[k..], b);
      T.FirstReplaced(if a[0] == '\n' || a[0] == '\r' then "" else [a[0]] + Lines(a[k..])[0], Lines(a[k..]), Lines(b));
    }
  }

  /******* backticks *******/

  lemma {:induction false} LeadOfRepeat(n: nat, s: string)
    requires s == "" || s[0] != '`'
    ensures Lead(T.Repeat('`', n) + s) == n
  {
    if n == 0 {
      assert T.Repeat('`', 0) + s == s;
    } else {
      LeadOfRepeat(n - 1, s);
      assert (T.Repeat('`', n) + s)[1..] == T.Repeat('`', n - 1) + s;
    }
  }

  lemma {:induction false} RunInSuffix(s: string, i: nat)
    requires i <= |s|
    ensures LongestRun(s[i..]) <= LongestRun(s) && Lead(s[i..]) <= LongestRun(s)
  {
    if i == 0 {
      assert s[0..] == s;
    } else {
      RunInSuffix(s[1..], i - 1);
      assert s[1..][i - 1..] == s[i..];
    }
  }

  // No line of a text holds a longer run than the text.
  lemma {:induction false} RunInLines(s: string, i: nat)
    requires i < |Lines(s)|
    ensures LongestRun(Lines(s)[i]) <= LongestRun(s)
    ensures Lead(Lines(s)[0]) == Lead(s)
    decreases |s|
  {
    if s != "" {
      var k := if s[0] == '\r' && |s| > 1 && s[1] == '\n' then 2 else 1;
      var rest := Lines(s[k..]);
      RunInSuffix(s, k);
      if s[0] == '\n' || s[0] == '\r' {
        if i > 0 { RunInLines(s[k..], i - 1); }
      } else {
        RunInLines(s[1..], i);
        if i == 0 { assert ([s[0]] + rest[0])[1..] == rest[0]; }
        assert ([s[0]] + rest[0])[1..] == rest[0];
      }
    }
  }

  lemma NoLineCloses(value: string, i: nat)
    requires i < |Lines(value)|
    ensures !Closes(Lines(value)[i], FenceWidth(value))
  {
    var l := Lines(value)[i];
    RunInLines(value, i);
    RunInSuffix(l, LeadSpaces(l));
  }

  lemma {:induction false} CloseAfter(lines: seq<string>, last: string, width: nat)
    requires (forall i | 0 <= i < |lines| :: !Closes(lines[i], width)) && Closes(last, width)
    ensures CloseAt(lines + [last], width) == |lines|
  {
    if lines != [] {
      CloseAfter(lines[1..], last, width);
      assert (lines + [last])[1..] == lines[1..] + [last];
    }
  }

  lemma FenceCloses(value: string)
    ensures Closes(Fence(value), FenceWidth(value)) && OneLine(Fence(value))
  {
    LeadOfRepeat(FenceWidth(value), "");
    assert Fence(value) + "" == Fence(value);
    assert LeadSpaces(Fence(value)) == 0 && Fence(value)[0..] == Fence(value);
  }

  /******* the round trip *******/

  // A language the first line can carry.
  predicate CleanLanguage(language: string) {
    OneLine(language) && '`' !in language
  }

  lemma OpeningLine(language: string, value: string)
    requires CleanLanguage(language)
    ensures OneLine(Fence(value) + language) && Lead(Fence(value) + language) == FenceWidth(value)
    ensures (Fence(value) + language)[FenceWidth(value)..] == language
  {
    if language != "" { assert language[0] in language; }
    LeadOfRepeat(FenceWidth(value), language);
    assert forall c | c in Fence(value) + language :: c == '`' || c in language;
  }

  // The lines of the whole rendering, after its first.
  function Body(value: string): seq<string> {
    Lines(value + "\n" + Fence(value))
  }

  lemma ReadRendered(language: string, value: string)
    requires CleanLanguage(language)
    ensures Lines(Render(language, value)) == [Fence(value) + language] + Body(value)
    ensures var n := CloseAt(Body(value), FenceWidth(value));
            Read(Render(language, value)) ==
              Some(Block(Trim(language), Body(value)[..n], if n == |Body(value)| then [] else Body(value)[n + 1..]))
  {
    OpeningLine(language, value);
    RenderedLines(Fence(value) + language, value + "\n" + Fence(value), Render(language, value));
    ReadLines(Render(language, value), Fence(value) + language, Body(value), FenceWidth(value));
  }

  lemma RenderedLines(first: string, rest: string, text: string)
    requires OneLine(first) && text == first + "\n" + rest
    ensures Lines(text) == [first] + Lines(rest)
  {
    assert !EndsInReturn(first);
    LinesConcat(first, rest);
    LinesOfOne(first);
  }

  lemma ReadLines(text: string, first: string, body: seq<string>, width: nat)
    requires Lines(text) == [first] + body && Lead(first) == width >= 3 && '`' !in first[width..]
    ensures var n := CloseAt(body, width);
            Read(text) == Some(Block(Trim(first[width..]), body[..n], if n == |body| then [] else body[n + 1..]))
  {
    assert Lines(text)[1..] == body;
  }

  lemma BodyPlain(value: string)
    requires !EndsInReturn(value)
    ensures Body(value) == Lines(value) + [Fence(value)] && CloseAt(Body(value), FenceWidth(value)) == |Lines(value)|
  {
    FenceCloses(value);
    LinesConcat(value, Fence(value));
    LinesOfOne(Fence(value));
    forall i | 0 <= i < |Lines(value)| ensures !Closes(Lines(value)[i], FenceWidth(value)) { NoLineCloses(value, i); }
    CloseAfter(Lines(value), Fence(value), FenceWidth(value));
  }

  lemma BodyWithReturn(value: string)
    requires EndsInReturn(value)
    ensures |Body(value)| == |Lines(value)|
    ensures CloseAt(Body(value), FenceWidth(value)) < |Lines(value)|
  {
    var a := value[..|value| - 1];
    FenceCloses(value);
    assert value == a + "\r";
    LinesOfReturn(a);
    assert value + "\n" + Fence(value) == a + "\r\n" + Fence(value);
    LinesSwallow(a, Fence(value));
    LinesOfOne(Fence(value));
    CloseWithin(Lines(a), Fence(value), FenceWidth(value));
  }

  lemma {:induction false} CloseWithin(lines: seq<string>, last: string, width: nat)
    requires Closes(last, width)
    ensures CloseAt(lines + [last], width) <= |lines|
  {
    if lines != [] && !Closes(lines[0], width) {
      CloseWithin(lines[1..], last, width);
      assert (lines + [last])[1..] == lines[1..] + [last];
    }
  }

  lemma {:induction false} LinesArePython(s: string)
    requires '\r' !in s
    ensures Lines(s) == T.Split(s)
  {
    if s != "" { LinesArePython(s[1..]); }
  }

  lemma {:induction false} JoinOfOneLines(lines: seq<string>)
    requires forall l | l in lines :: OneLine(l)
    ensures '\r' !in T.Join(lines, "\n")
  {
    if |lines| == 1 {
      assert OneLine(lines[0]);
    } else if |lines| > 1 {
      JoinOfOneLines(lines[1..]);
      var first, rest := lines[0], T.Join(lines[1..], "\n");
      assert OneLine(first);
      forall c | c in first + "\n" + rest ensures c != '\r' { assert c in first || c == '\n' || c in rest; }
    }
  }

  // What the reader takes for the content of a rendered block.
  lemma ContentRead(language: string, value: string)
    requires CleanLanguage(language)
    ensures var r := Read(Render(language, value));
            && r.Some? && r.value.info == Trim(language)
            && (r.value.content == Lines(value) <==> !EndsInReturn(value))
            && (!EndsInReturn(value) ==> r.value.after == [])
            && forall l | l in r.value.content :: OneLine(l)
  {
    ReadRendered(language, value);
    forall i | 0 <= i < |Body(value)| ensures OneLine(Body(value)[i]) { LineIsOneLine(value + "\n" + Fence(value), i); }
    if EndsInReturn(value) {
      BodyWithReturn(value);
    } else {
      BodyPlain(value);
      assert (Lines(value) + [Fence(value)])[..|Lines(value)|] == Lines(value);
      assert (Lines(value) + [Fence(value)])[|Lines(value)| + 1..] == [];
    }
  }

  // With a clean language the value is recovered, and nothing is left after it, exactly when it holds no carriage
  // return: the reader ends a line there, and before the closing fence the line end merges with the line feed.
  lemma FenceRoundTrip(language: string, value: string)
    requires CleanLanguage(language)
    ensures var r := Read(Render(language, value));
            && r.Some?
            && (T.Join(r.value.content, "\n") == value <==> '\r' !in value)
            && ('\r' !in value ==> r.value.after == [])
  {
    ContentRead(language, value);
    if '\r' !in value {
      assert !EndsInReturn(value);
      LinesArePython(value);
      T.JoinSplit(value);
    } else {
      JoinOfOneLines(Read(Render(language, value)).value.content);
    }
  }

  /******* languages the first line cannot carry *******/

  lemma TrimShortens(s: string)
    requires s != "" && Blank(s[0])
    ensures |TrimStart(s)| < |s| && Trim(s) != s
  {
    TrimLengths(s[1..]);
    TrimEndLength(TrimStart(s));
  }

  lemma {:induction false} TrimLengths(s: string)
    ensures |TrimStart(s)| <= |s|
  {
    if s != "" && Blank(s[0]) { TrimLengths(s[1..]); }
  }

  lemma {:induction false} TrimEndLength(s: string)
    ensures |TrimEnd(s)| <= |s|
  {
    if s != "" && Blank(s[|s| - 1]) { TrimEndLength(s[..|s| - 1]); }
  }

  lemma {:induction false} TrimKeeps(s: string, c: char)
    requires !Blank(c)
    ensures c in Trim(s) <==> c in s
  {
    TrimStartKeeps(s, c);
    TrimEndKeeps(TrimStart(s), c);
  }

  lemma {:induction false} TrimStartKeeps(s: string, c: char)
    requires !Blank(c)
    ensures c in TrimStart(s) <==> c in s
  {
    if s != "" && Blank(s[0]) {
      TrimStartKeeps(s[1..], c);
      assert s == [s[0]] + s[1..];
    }
  }

  lemma {:induction false} TrimEndKeeps(s: string, c: char)
    requires !Blank(c)
    ensures c in TrimEnd(s) <==> c in s
  {
    if s != "" && Blank(s[|s| - 1]) {
      TrimEndKeeps(s[..|s| - 1], c);
      assert s == s[..|s| - 1] + [s[|s| - 1]];
    }
  }

  lemma {:induction false} LineIsOneLine(s: string, i: nat)
    requires i < |Lines(s)|
    ensures OneLine(Lines(s)[i])
    decreases |s|
  {
    if s != "" {
      var k := if s[0] == '\r' && |s| > 1 && s[1] == '\n' then 2 else 1;
      if s[0] == '\n' || s[0] == '\r' {
        if i > 0 { LineIsOneLine(s[k..], i - 1); }
      } else {
        LineIsOneLine(s[1..], i);
      }
    }
  }

  // What the reader takes for the language holds no line end and no backtick, so a language with one is lost.
  lemma InfoRead(language: string, value: string)
    ensures var r := Read(Render(language, value));
            && (r.Some? ==> CleanLanguage(r.value.info))
            && (CleanLanguage(language) ==> r.Some? && r.value.info == Trim(language))
  {
    var r := Read(Render(language, value));
    if CleanLanguage(language) { ReadRendered(language, value); }
    if r.Some? {
      var first := Lines(Render(language, value))[0];
      var rest := first[Lead(first)..];
      LineIsOneLine(Render(language, value), 0);
      assert forall c | c in rest :: c in first;
      TrimKeeps(rest, '\n');
      TrimKeeps(rest, '\r');
      TrimKeeps(rest, '`');
    }
  }

  // The language comes back exactly when it holds no line end and no backtick, and no blank at either side.
  lemma LanguageExactly(language: string, value: string)
    ensures var r := Read(Render(language, value));
            (r.Some? && r.value.info == language) <==> CleanLanguage(language) && Trim(language) == language
  {
    InfoRead(language, value);
  }

  // The whole block comes back exactly when both do.
  lemma BlockExactly(language: string, value: string)
    ensures var r := Read(Render(language, value));
            (r.Some? && r.value.info == language && T.Join(r.value.content, "\n") == value) <==>
              CleanLanguage(language) && Trim(language) == language && '\r' !in value
  {
    LanguageExactly(language, value);
    if CleanLanguage(language) { FenceRoundTrip(language, value); }
  }
}

/** The Markdown view of an accepted document. */
module DocumentMarkdown {
  import opened Wrappers
  import opened Json
  import opened Document
  import opened MarkdownLayout
  import CodeFence
  import T = Text

  function Level(node: Json): nat
    requires ValidTree(node) && Kind(node) == "heading"
  {
    GetOr(Attrs(node).value, "level", JInt(1)).i
  }

  // `enumerate` counts from an integer or a truth value and raises a TypeError on anything else; the lookup is the same
  // for both kinds of list.
  function Start(node: Json): Option<int>
    requires ValidTree(node) && ListKind(Kind(node))
  {
    match GetOr(Attrs(node).value, "start", JInt(1))
    case JInt(i) => Some(i)
    case JBool(b) => Some(if b then 1 else 0)
    case _ => None
  }

  function Language(node: Json): string
    requires ValidTree(node) && Kind(node) == "codeBlock"
  {
    if Truthy(Get(Attrs(node).value, "language")) then Get(Attrs(node).value, "language").s else ""
  }

  // Defined on every accepted tree; the start of a list is the one lookup in it that can raise.
  function MarkdownBlock(node: Json): Option<string>
    requires ValidTree(node)
    decreases node, 0
  {
    var kind := Kind(node);
    if kind == "heading" then Some(T.Repeat('#', Level(node)) + " " + InlineText(node, false))
    else if kind == "paragraph" then Some(InlineText(node, false))
    else if kind == "codeBlock" then Some(CodeFence.Render(Language(node), InlineText(node, false)))
    else if kind == "horizontalRule" then Some("---")
    else if Media(kind) then Some(MediaPlaceholder(node))
    else if ListKind(kind) && Start(node).None? then None
    else
      var parts := Rendered(node, |Children(node)|);
      if parts.None? then None
      else if ListKind(kind) then Some(ListText(kind == "orderedList", Start(node).value, parts.value))
      else if kind == "blockquote" then Some(Quote(T.Join(parts.value, "\n\n")))
      else Some(T.Join(parts.value, "\n\n"))
  }

  // The first n children, each rendered, unless one of them raises.
  function Rendered(node: Json, n: nat): (r: Option<seq<string>>)
    requires ValidTree(node) && n <= |Children(node)|
    ensures r.Some? ==> |r.value| == n
    decreases node, 0, n
  {
    if n == 0 then Some([])
    else
      var front, last := Rendered(node, n - 1), MarkdownBlock(Children(node)[n - 1]);
      if front.None? || last.None? then None else Some(front.value + [last.value])
  }

  // The validator's own error, and the TypeError of `enumerate`.
  datatype Failure = Refused | StartNotAnInteger

  function DocumentToMarkdown(doc: Json): Result<string, Failure> {
    if !ValidDocument(doc) then Err(Refused)
    else if Children(doc) == [] then Ok("")
    else
      var text := MarkdownBlock(doc);
      if text.None? then Err(StartNotAnInteger) else Ok(text.value + "\n\n")
  }

  /******* when rendering succeeds *******/

  predicate StartOk(node: Json) {
    node.JObj? && Kind(node) == "bulletList" && Attrs(node).Some? ==>
      "start" !in Attrs(node).value || Attrs(node).value["start"].JInt? || Attrs(node).value["start"].JBool?
  }

  // Every bullet list in the tree has its start absent, an integer or a truth value.
  predicate StartsOk(node: Json)
    decreases node, 0
  {
    StartOk(node) && StartsOkIn(node, |Children(node)|)
  }

  predicate StartsOkIn(node: Json, n: nat)
    requires n <= |Children(node)|
    decreases node, 0, n
  {
    forall i | 0 <= i < n :: StartsOk(Children(node)[i])
  }

  lemma StartsOkStep(node: Json, n: nat)
    requires 0 < n <= |Children(node)|
    ensures StartsOkIn(node, n) <==> StartsOkIn(node, n - 1) && StartsOk(Children(node)[n - 1])
  {}

  lemma RenderedStep(node: Json, n: nat)
    requires ValidTree(node) && 0 < n <= |Children(node)|
    ensures var last, front := MarkdownBlock(Children(node)[n - 1]), Rendered(node, n - 1);
            Rendered(node, n) == if front.None? || last.None? then None else Some(front.value + [last.value])
  {}

  lemma InlineStartsOk(node: Json)
    requires ValidTree(node) && !Container(Kind(node))
    ensures StartsOk(node)
  {
    forall i | 0 <= i < |Children(node)| ensures StartsOk(Children(node)[i]) {
      assert ChildOk(Kind(node), Children(node)[i]) && ValidTree(Children(node)[i]);
    }
  }

  lemma StartExactly(node: Json)
    requires ValidTree(node) && ListKind(Kind(node))
    ensures Start(node).Some? <==> StartOk(node)
  {}

  lemma {:induction false} BlockRendersExactly(node: Json)
    requires ValidTree(node) && Kind(node) != "text" && Kind(node) != "hardBreak"
    ensures MarkdownBlock(node).Some? <==> StartsOk(node)
    decreases node, 0
  {
    if !Container(Kind(node)) {
      InlineStartsOk(node);
    } else {
      if ListKind(Kind(node)) { StartExactly(node); }
      RenderedExactly(node, |Children(node)|);
    }
  }

  lemma {:induction false} RenderedExactly(node: Json, n: nat)
    requires ValidTree(node) && Container(Kind(node)) && n <= |Children(node)|
    ensures Rendered(node, n).Some? <==> StartsOkIn(node, n)
    decreases node, 0, n
  {
    if n > 0 {
      RenderedStep(node, n);
      StartsOkStep(node, n);
      RenderedExactly(node, n - 1);
      BlockChild(node, n - 1);
      BlockRendersExactly(Children(node)[n - 1]);
    }
  }

  // The conversion succeeds exactly for accepted documents in which every bullet list's start is absent, an integer or
  // a truth value; the validator looks at the start of ordered lists only.
  lemma RendersExactly(doc: Json)
    ensures DocumentToMarkdown(doc).Ok? <==> ValidDocument(doc) && StartsOk(doc)
  {
    if ValidDocument(doc) { BlockRendersExactly(doc); }
  }

  function ListDocument(kind: string, start: Json): Json {
    JObj(map["type" := JStr("doc"),
             "content" := JArr([JObj(map["type" := JStr(kind), "attrs" := JObj(map["start" := start])])])])
  }

  lemma ListAccepted(kind: string, start: Json)
    requires ListKind(kind)
    ensures var list := JObj(map["type" := JStr(kind), "attrs" := JObj(map["start" := start])]);
            && Kind(list) == kind && Children(list) == []
            && (ValidTree(list) <==> kind == "bulletList" || start.JInt?)
            && (kind == "bulletList" ==> (StartsOk(list) <==> start.JInt? || start.JBool?))
  {
    var attrs := map["start" := start];
    var list := JObj(map["type" := JStr(kind), "attrs" := JObj(attrs)]);
    assert attrs != map[] by { assert "start" in attrs; }
    assert Kind(list) == kind && Children(list) == [] && Attrs(list) == Some(attrs);
    assert NodeOk(list) <==> kind == "bulletList" || start.JInt?;
  }

  lemma OneBlockDocument(doc: Json, block: Json)
    requires doc == JObj(map["type" := JStr("doc"), "content" := JArr([block])])
    requires ListKind(Kind(block)) && block.JObj?
    ensures ValidDocument(doc) <==> ValidTree(block)
    ensures StartsOk(doc) <==> StartsOk(block)
  {
    assert Kind(doc) == "doc" && Children(doc) == [block] && Attrs(doc) == Some(map[]) && ChildOk("doc", block);
    assert NodeOk(doc);
    assert ValidTree(doc) <==> ValidTree(Children(doc)[0]);
    StartsOkStep(doc, 1);
  }

  // Whatever a bullet list gives as its start, the document is accepted; it converts exactly for integers and truth
  // values. A list that starts at a text is an accepted document whose conversion raises.
  lemma AcceptedButNotRendered(start: Json)
    ensures var doc := ListDocument("bulletList", start);
            ValidDocument(doc) && (DocumentToMarkdown(doc).Ok? <==> start.JInt? || start.JBool?)
    ensures DocumentToMarkdown(ListDocument("bulletList", JStr("x"))) == Err(StartNotAnInteger)
    ensures ValidDocument(ListDocument("orderedList", start)) <==> start.JInt?
  {
    BulletDocument(start);
    BulletDocument(JStr("x"));
    ListAccepted("orderedList", start);
    OneBlockDocument(ListDocument("orderedList", start),
                     JObj(map["type" := JStr("orderedList"), "attrs" := JObj(map["start" := start])]));
  }

  lemma BulletDocument(start: Json)
    ensures var doc := ListDocument("bulletList", start);
            && ValidDocument(doc)
            && (DocumentToMarkdown(doc).Ok? <==> start.JInt? || start.JBool?)
            && (DocumentToMarkdown(doc).Err? ==> DocumentToMarkdown(doc) == Err(StartNotAnInteger))
  {
    var list := JObj(map["type" := JStr("bulletList"), "attrs" := JObj(map["start" := start])]);
    ListAccepted("bulletList", start);
    OneBlockDocument(ListDocument("bulletList", start), list);
    RendersExactly(ListDocument("bulletList", start));
  }

  /******* reading back *******/

  lemma {:induction false} RenderedAt(node: Json, n: nat, i: nat)
    requires ValidTree(node) && i < n <= |Children(node)| && Rendered(node, n).Some?
    ensures MarkdownBlock(Children(node)[i]) == Some(Rendered(node, n).value[i])
  {
    RenderedStep(node, n);
    var front, last := Rendered(node, n - 1).value, MarkdownBlock(Children(node)[n - 1]).value;
    if i < n - 1 {
      RenderedAt(node, n - 1, i);
      assert (front + [last])[i] == front[i];
    }
  }

  // Reading a rendered list recovers the rendering of each of its items, at any depth of nesting inside them.
  lemma ListRecovered(node: Json, i: nat)
    requires ValidTree(node) && ListKind(Kind(node)) && StartsOk(node) && i < |Children(node)|
    ensures MarkdownBlock(node).Some?
    ensures var items := ReadList(Kind(node) == "orderedList", MarkdownBlock(node).value);
            |items| == |Children(node)| && MarkdownBlock(Children(node)[i]) == Some(items[i])
  {
    BlockRendersExactly(node);
    var parts := Rendered(node, |Children(node)|).value;
    RenderedAt(node, |Children(node)|, i);
    ReadListText(Kind(node) == "orderedList", Start(node).value, parts);
  }

  // Taking the prefixes off a rendered block quote recovers its children's renderings, joined as in any container.
  lemma QuoteRecovered(node: Json)
    requires ValidTree(node) && Kind(node) == "blockquote" && StartsOk(node)
    ensures MarkdownBlock(node).Some? && Rendered(node, |Children(node)|).Some?
    ensures var parts := Rendered(node, |Children(node)|).value;
            && Unquote(MarkdownBlock(node).value) == T.Join(parts, "\n\n")
            && forall i | 0 <= i < |parts| :: MarkdownBlock(Children(node)[i]) == Some(parts[i])
  {
    BlockRendersExactly(node);
    var parts := Rendered(node, |Children(node)|).value;
    forall i | 0 <= i < |parts| ensures MarkdownBlock(Children(node)[i]) == Some(parts[i]) {
      RenderedAt(node, |Children(node)|, i);
    }
    UnquoteQuote(T.Join(parts, "\n\n"));
  }

  // Every accepted code block renders, and reads back as its language and its text exactly when the language has no
  // backtick, no line end and no blank at either side, and the text has no carriage return.
  lemma CodeRecovered(node: Json)
    requires ValidTree(node) && Kind(node) == "codeBlock"
    ensures MarkdownBlock(node).Some?
    ensures var r, language, value := CodeFence.Read(MarkdownBlock(node).value), Language(node), InlineText(node, false);
            (r.Some? && r.value.info == language && T.Join(r.value.content, "\n") == value) <==>
              CodeFence.CleanLanguage(language) && CodeFence.Trim(language) == language && '\r' !in value
  {
    CodeFence.BlockExactly(Language(node), InlineText(node, false));
  }

  function CodeNode(language: string, text: string): Json {
    JObj(map["type" := JStr("codeBlock"), "attrs" := JObj(map["language" := JStr(language)]),
             "content" := JArr([JObj(map["type" := JStr("text"), "text" := JStr(text)])])])
  }

  lemma TextLeaf(leaf: Json, text: string)
    requires leaf == JObj(map["type" := JStr("text"), "text" := JStr(text)])
    ensures ValidTree(leaf) && Kind(leaf) == "text" && InlineText(leaf, false) == text
  {
    assert Children(leaf) == [] && Attrs(leaf) == Some(map[]) && NodeOk(leaf);
  }

  lemma CodeNodeShape(language: string, leaf: Json, node: Json)
    requires node == JObj(map["type" := JStr("codeBlock"), "attrs" := JObj(map["language" := JStr(language)]), "content" := JArr([leaf])])
    requires language != "" && leaf.JObj? && Kind(leaf) == "text"
    ensures Kind(node) == "codeBlock" && Children(node) == [leaf] && NodeOk(node)
    ensures Attrs(node) == Some(map["language" := JStr(language)])
  {
    var attrs := map["language" := JStr(language)];
    assert attrs != map[] by { assert "language" in attrs; }
    assert ChildOk("codeBlock", leaf);
  }

  lemma CodeNodeAccepted(language: string, text: string)
    requires language != ""
    ensures var node := CodeNode(language, text);
            ValidTree(node) && Kind(node) == "codeBlock" && Language(node) == language && InlineText(node, false) == text
  {
    var leaf, node := JObj(map["type" := JStr("text"), "text" := JStr(text)]), CodeNode(language, text);
    TextLeaf(leaf, text);
    CodeNodeShape(language, leaf, node);
    assert InlineParts(node, false) == [text];
    FlatOne(text);
  }

  // Accepted blocks whose language or text does not come back: a blank before the language, a backtick or a line feed
  // in it, a carriage return inside the text or at its end.
  lemma CodeNotRecovered(language: string, text: string)
    requires (language, text) in {(" py", "x"), ("a`b", "x"), ("a\nb", "x"), ("py", "a\rb"), ("py", "a\r")}
    ensures var node := CodeNode(language, text);
            && ValidTree(node) && Kind(node) == "codeBlock" && MarkdownBlock(node).Some?
            && var r := CodeFence.Read(MarkdownBlock(node).value);
               r.None? || r.value.info != language || T.Join(r.value.content, "\n") != text
  {
    NotClean(language, text);
    CodeNodeAccepted(language, text);
    CodeRecovered(CodeNode(language, text));
  }

  lemma NotClean(language: string, text: string)
    requires (language, text) in {(" py", "x"), ("a`b", "x"), ("a\nb", "x"), ("py", "a\rb"), ("py", "a\r")}
    ensures language != ""
    ensures !CodeFence.CleanLanguage(language) || CodeFence.Trim(language) != language || '\r' in text
  {
    CodeFence.TrimShortens(" py");
    assert "a`b"[1] == '`' && "a\nb"[1] == '\n' && "a\rb"[1] == '\r' && "a\r"[1] == '\r';
  }
}
