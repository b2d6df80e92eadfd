/**
 The resources of an industry export: which listed and referenced assets are available, which of
 those can be packaged, and the members of the archive.
 */
module Resources {
  import opened Wrappers
  import opened Sorting
  import T = Text

  newtype Byte = b: int | 0 <= b < 256
  type Bytes = seq<Byte>

  const MAX_RESOURCE_BYTES: nat := 25 * 1024 * 1024
  const MAX_PACKAGE_RESOURCE_BYTES: nat := 64 * 1024 * 1024

  datatype Size = NoSize | SizeIs(n: int) | NotASize

  // A manifest row: `id` is stripped, and empty for rows that have none; `sha256` is stripped and lower-cased;
  // `ownMark` is the row's own "unreferenced" field, read as true or false.
  datatype Item = Item(id: string, sha256: string, size: Size, filename: string, ownMark: bool)

  datatype Listed = Listed(item: Item, available: bool)

  datatype Record = Record(item: Item, available: bool, unreferenced: bool)

  datatype Manifest = Manifest(available: seq<Item>, missing: seq<Item>)

  function Blank(id: string): Item { Item(id, "", NoSize, "", false) }

  /******* normalisation *******/

  function Rows(items: seq<Item>, available: bool): seq<Listed> {
    if items == [] then []
    else (if items[0].id == "" then [] else [Listed(items[0], available)]) + Rows(items[1..], available)
  }

  function Listing(m: Manifest): seq<Listed> {
    Rows(m.available, true) + Rows(m.missing, false)
  }

  // A second row for an identity makes it missing for good.
  function AddRow(known: map<string, Listed>, row: Listed): map<string, Listed> {
    if row.item.id in known then known[row.item.id := Listed(Blank(row.item.id), false)] else known[row.item.id := row]
  }

  function Known(rows: seq<Listed>): map<string, Listed> {
    if rows == [] then map[] else AddRow(Known(rows[..|rows| - 1]), rows[|rows| - 1])
  }

  function Lookup(known: map<string, Listed>, id: string): Listed {
    if id in known then known[id] else Listed(Blank(id), false)
  }

  function ReferencedRecords(known: map<string, Listed>, ids: seq<string>): seq<Record> {
    seq(|ids|, i requires 0 <= i < |ids| =>
      Record(Lookup(known, ids[i]).item, Lookup(known, ids[i]).available, Lookup(known, ids[i]).item.ownMark))
  }

  function IdsListed(rows: seq<Listed>): seq<string> {
    seq(|rows|, i requires 0 <= i < |rows| => rows[i].item.id)
  }

  // The identities of one status that nobody references, in order.
  function Others(known: map<string, Listed>, ids: seq<string>, references: seq<string>, available: bool): seq<Record> {
    if ids == [] then []
    else
      (if ids[0] in references || Lookup(known, ids[0]).available != available then []
       else [Record(Lookup(known, ids[0]).item, available, true)])
      + Others(known, ids[1..], references, available)
  }

  function NonEmpty(ids: seq<string>): seq<string> {
    if ids == [] then [] else (if ids[0] == "" then [] else [ids[0]]) + NonEmpty(ids[1..])
  }

  // `references` are stripped; empty ones do not count.
  function Records(m: Manifest, references: seq<string>): seq<Record> {
    var known, wanted := Known(Listing(m)), SortedSet(NonEmpty(references));
    var listed := SortedSet(IdsListed(Listing(m)));
    ReferencedRecords(known, wanted) + Others(known, listed, wanted, true) + Others(known, listed, wanted, false)
  }

  function OfStatus(rs: seq<Record>, available: bool): seq<Record> {
    if rs == [] then [] else (if rs[0].available == available then [rs[0]] else []) + OfStatus(rs[1..], available)
  }

  function ReferencedIds(rs: seq<Record>): seq<string> {
    if rs == [] then [] else (if rs[0].unreferenced then [] else [rs[0].item.id]) + ReferencedIds(rs[1..])
  }

  datatype Normalized = Normalized(referenced: seq<string>, available: seq<Record>, missing: seq<Record>)

  function Normalize(m: Manifest, references: seq<string>): Normalized {
    var rs := Records(m, references);
    Normalized(ReferencedIds(rs), OfStatus(rs, true), OfStatus(rs, false))
  }

  /******* resolution *******/

  datatype Asset = Asset(id: string, project: string, filename: string, content: Option<Bytes>)

  // The caller's loader; an asset it cannot describe, or content it cannot read, is None.
  type Loader = string -> Option<Asset>

  datatype Context = Context(loader: Option<Loader>, project: string, digest: Bytes -> string)

  predicate IdChar(c: char) { 'a' <= c <= 'z' || 'A' <= c <= 'Z' || '0' <= c <= '9' || c == '_' || c == '-' }

  predicate SafeId(id: string) {
    1 <= |id| <= 255 && IdChar(id[0]) && forall c | c in id :: IdChar(c) || c == '.'
  }

  predicate Sha256Text(s: string) {
    |s| == 64 && forall c | c in s :: '0' <= c <= '9' || 'a' <= c <= 'f'
  }

  // Everything that must hold of an available row for its bytes to be packaged, given the bytes packaged so far.
  predicate Packs(x: Context, r: Record, total: nat) {
    && r.available && x.loader.Some? && SafeId(r.item.id)
    && var asset := x.loader.value(r.item.id);
       && asset.Some? && asset.value.id == r.item.id
       && x.project != "" && asset.value.project == x.project
       && Sha256Text(r.item.sha256) && asset.value.content.Some?
       && var content := asset.value.content.value;
          && (r.item.size.NoSize? || r.item.size == SizeIs(|content|))
          && |content| <= MAX_RESOURCE_BYTES && total + |content| <= MAX_PACKAGE_RESOURCE_BYTES
          && r.item.sha256 == x.digest(content)
  }

  function ContentOf(x: Context, r: Record): Bytes
    requires x.loader.Some? && x.loader.value(r.item.id).Some? && x.loader.value(r.item.id).value.content.Some?
  {
    x.loader.value(r.item.id).value.content.value
  }

  datatype Packing = Packing(records: seq<Record>, binaries: map<string, Bytes>, total: nat)

  function PackedRecord(x: Context, r: Record): Record
    requires x.loader.Some? && x.loader.value(r.item.id).Some? && x.loader.value(r.item.id).value.content.Some?
  {
    var asset := x.loader.value(r.item.id).value;
    r.(item := r.item.(filename := if asset.filename != "" then asset.filename else r.item.filename,
                       size := SizeIs(|ContentOf(x, r)|)))
  }

  function Resolve(x: Context, rs: seq<Record>): Packing {
    if rs == [] then Packing([], map[], 0)
    else
      var p, r := Resolve(x, rs[..|rs| - 1]), rs[|rs| - 1];
      if Packs(x, r, p.total) then
        Packing(p.records + [PackedRecord(x, r)], p.binaries[r.item.id := ContentOf(x, r)], p.total + |ContentOf(x, r)|)
      else p.(records := p.records + [r.(available := false)])
  }

  datatype Policy = AllowMissing | RequireAll

  datatype Resolved = Resolved(referenced: seq<string>, available: seq<Record>, missing: seq<Record>, binaries: map<string, Bytes>)

  // Under RequireAll a single missing row is an error, and it comes with the missing rows.
  function ResolveResources(x: Context, m: Manifest, references: seq<string>, policy: Policy): Result<Resolved, seq<Record>> {
    var n := Normalize(m, references);
    var p := Resolve(x, n.available + n.missing);
    var missing := OfStatus(p.records, false);
    if policy.RequireAll? && missing != [] then Err(missing)
    else Ok(Resolved(n.referenced, OfStatus(p.records, true), missing, p.binaries))
  }

  /******* the archive *******/

  function CleanChar(c: char): char {
    if c == '\\' || c == '/' || c as int < 32 || c as int == 127 then '_' else c
  }

  function Clean(s: string): (r: string)
    ensures |r| == |s| && forall i | 0 <= i < |s| :: r[i] == CleanChar(s[i])
  {
    seq(|s|, i requires 0 <= i < |s| => CleanChar(s[i]))
  }

  function StripEnds(s: string): (r: string)
    ensures forall c | c in r :: c in s
    decreases |s|
  {
    if s == "" then ""
    else if s[0] == ' ' || s[0] == '.' then StripEnds(s[1..])
    else if s[|s| - 1] == ' ' || s[|s| - 1] == '.' then StripEnds(s[..|s| - 1])
    else s
  }

  // `{index:03d}`
  function Padded(index: nat): string {
    T.Repeat('0', if |T.Decimal(index)| < 3 then 3 - |T.Decimal(index)| else 0) + T.Decimal(index)
  }

  function DefaultName(index: nat): string { "asset-" + Padded(index) + ".bin" }

  function MemberName(index: nat, filename: string): string {
    var cleaned := StripEnds(Clean(if filename == "" then DefaultName(index) else filename));
    if cleaned == "" then DefaultName(index) else cleaned
  }

  function MemberPath(index: nat, filename: string): string {
    var name := MemberName(index, filename);
    "resources/" + (Padded(index) + ("-" + if |name| > 180 then name[..180] else name))
  }

  // Archive members in the order they are put in; a repeated path would be overwritten.
  datatype Member = Member(path: string, content: Bytes)

  function Paths(files: seq<Member>): seq<string> {
    seq(|files|, i requires 0 <= i < |files| => files[i].path)
  }

  function Put(files: seq<Member>, path: string, content: Bytes): seq<Member> {
    if files == [] then [Member(path, content)]
    else if files[0].path == path then [Member(path, content)] + files[1..]
    else [files[0]] + Put(files[1..], path, content)
  }

  // The packaged rows, numbered from one.
  function ResourceFiles(rows: seq<Record>, binaries: map<string, Bytes>, n: nat): seq<Member>
    requires n <= |rows|
  {
    if n == 0 then []
    else
      var files, row := ResourceFiles(rows, binaries, n - 1), rows[n - 1];
      if row.item.id !in binaries then files else Put(files, MemberPath(n, row.item.filename), binaries[row.item.id])
  }

  function PutAll(files: seq<Member>, more: seq<Member>): seq<Member> {
    if more == [] then files
    else Put(PutAll(files, more[..|more| - 1]), more[|more| - 1].path, more[|more| - 1].content)
  }

  const MANIFEST_NAME: string := "manifest.json"

  // The file list written into the manifest, and the members of the archive that holds it.
  function ManifestList(files: seq<Member>): seq<string> {
    Sort(Paths(files) + [MANIFEST_NAME], StrLe)
  }

  function ArchiveMembers(files: seq<Member>, manifest: Bytes): seq<string> {
    Sort(Paths(Put(files, MANIFEST_NAME, manifest)), StrLe)
  }

  datatype PackageKind = Storyboard | Screenplay | ShotList

  function FixedNames(kind: PackageKind): seq<string> {
    match kind
    case Storyboard => ["storyboard.html", "shots.csv", "screenplay.fountain"]
    case Screenplay => ["screenplay.fountain", "screenplay.docx"]
    case ShotList => ["shot-list.csv"]
  }

  function FixedFiles(kind: PackageKind, texts: seq<Bytes>): seq<Member>
    requires |texts| == |FixedNames(kind)|
  {
    seq(|texts|, i requires 0 <= i < |texts| => Member(FixedNames(kind)[i], texts[i]))
  }

  // The storyboard stages its resources first, the other two their own files.
  function PackageFiles(kind: PackageKind, texts: seq<Bytes>, staged: seq<Member>): seq<Member>
    requires |texts| == |FixedNames(kind)|
  {
    if kind.Storyboard? then PutAll(staged, FixedFiles(kind, texts)) else PutAll(FixedFiles(kind, texts), staged)
  }
}

/** What the export promises for every manifest, list of references and loader. */
module ResourceLaws {
  import opened Wrappers
  import opened Sorting
  import opened Resources
  import T = Text

  /******* which identities are available *******/

  function CountId(rows: seq<Listed>, id: string): nat {
    if rows == [] then 0 else CountId(rows[..|rows| - 1], id) + if rows[|rows| - 1].item.id == id then 1 else 0
  }

  // An identity is known once it is listed, with its one row, or without one when it was listed again.
  lemma {:induction false} KnownExactly(rows: seq<Listed>, id: string)
    ensures id in Known(rows) <==> CountId(rows, id) >= 1
    ensures CountId(rows, id) == 1 ==> Known(rows)[id] in rows && Known(rows)[id].item.id == id
    ensures CountId(rows, id) >= 2 ==> Known(rows)[id] == Listed(Blank(id), false)
  {
    if rows != [] { KnownExactly(rows[..|rows| - 1], id); }
  }

  lemma {:induction false} InCounts(rows: seq<Listed>, row: Listed)
    requires row in rows
    ensures CountId(rows, row.item.id) >= 1
  {
    if row in rows[..|rows| - 1] { InCounts(rows[..|rows| - 1], row); }
  }

  lemma {:induction false} CountedOnceIsIt(rows: seq<Listed>, row: Listed)
    requires row in rows && CountId(rows, row.item.id) == 1
    ensures row.item.id in Known(rows) && Known(rows)[row.item.id] == row
  {
    var front := rows[..|rows| - 1];
    KnownExactly(rows, row.item.id);
    KnownExactly(front, row.item.id);
    if row in front {
      InCounts(front, row);
      CountedOnceIsIt(front, row);
    }
  }

  lemma {:induction false} RowsOf(items: seq<Item>, available: bool)
    ensures forall r :: r in Rows(items, available) <==> r.available == available && r.item.id != "" && r.item in items
  {
    if items != [] {
      RowsOf(items[1..], available);
      assert items[0] in items;
    }
  }

  lemma {:induction false} ListedIds(rows: seq<Listed>, id: string)
    ensures id in IdsListed(rows) <==> CountId(rows, id) >= 1
  {
    if rows != [] {
      ListedIds(rows[..|rows| - 1], id);
      assert IdsListed(rows) == IdsListed(rows[..|rows| - 1]) + [rows[|rows| - 1].item.id];
    }
  }

  lemma {:induction false} NonEmptyOf(ids: seq<string>, id: string)
    ensures id in NonEmpty(ids) <==> id != "" && id in ids
  {
    if ids != [] { NonEmptyOf(ids[1..], id); }
  }

  /******* the partition *******/

  function RecordIds(rs: seq<Record>): (r: seq<string>)
    ensures |r| == |rs| && forall i | 0 <= i < |rs| :: r[i] == rs[i].item.id
  {
    seq(|rs|, i requires 0 <= i < |rs| => rs[i].item.id)
  }

  lemma IncreasingCounts(ids: seq<string>, id: string)
    requires Increasing(ids)
    ensures multiset(ids)[id] == if id in ids then 1 else 0
  {
    if id in ids {
      var i :| 0 <= i < |ids| && ids[i] == id;
      assert ids == ids[..i] + [id] + ids[i + 1..];
      forall j | 0 <= j < i ensures ids[j] != id { assert StrLt(ids[j], ids[i]); }
      forall j | i < j < |ids| ensures ids[j] != id { assert StrLt(ids[i], ids[j]); }
      assert id !in ids[..i] && id !in ids[i + 1..];
    }
  }

  // Every entry of `known` carries the identity it is filed under.
  predicate Filed(known: map<string, Listed>) {
    forall id | id in known :: known[id].item.id == id
  }

  lemma {:induction false} KnownIsFiled(rows: seq<Listed>)
    ensures Filed(Known(rows))
  {
    if rows != [] { KnownIsFiled(rows[..|rows| - 1]); }
  }

  lemma {:induction false} OthersCounts(known: map<string, Listed>, ids: seq<string>, references: seq<string>, available: bool, id: string)
    requires Filed(known)
    ensures multiset(RecordIds(Others(known, ids, references, available)))[id] ==
              if id in references || Lookup(known, id).available != available then 0 else multiset(ids)[id]
    ensures forall r | r in Others(known, ids, references, available) :: r.available == available && r.unreferenced
  {
    if ids != [] {
      OthersCounts(known, ids[1..], references, available, id);
      var rest := Others(known, ids[1..], references, available);
      assert ids == [ids[0]] + ids[1..];
      if !(ids[0] in references || Lookup(known, ids[0]).available != available) {
        ConsIds(Record(Lookup(known, ids[0]).item, available, true), rest);
      } else {
        assert Others(known, ids, references, available) == rest;
      }
    }
  }

  lemma RecordIdsConcat(a: seq<Record>, b: seq<Record>, c: seq<Record>, id: string)
    ensures multiset(RecordIds(a + b + c))[id] == multiset(RecordIds(a))[id] + multiset(RecordIds(b))[id] + multiset(RecordIds(c))[id]
  {
    assert RecordIds(a + b + c) == RecordIds(a) + RecordIds(b) + RecordIds(c);
  }

  predicate Mentioned(m: Manifest, references: seq<string>, id: string) {
    (id != "" && id in references) || CountId(Listing(m), id) >= 1
  }

  // Every identity that is referenced or listed has exactly one record, and nothing else has one.
  lemma OneRecordEach(m: Manifest, references: seq<string>, id: string)
    ensures multiset(RecordIds(Records(m, references)))[id] == if Mentioned(m, references, id) then 1 else 0
  {
    var known, wanted := Known(Listing(m)), SortedSet(NonEmpty(references));
    var listed := SortedSet(IdsListed(Listing(m)));
    KnownIsFiled(Listing(m));
    SortedSetOk(NonEmpty(references));
    SortedSetOk(IdsListed(Listing(m)));
    NonEmptyOf(references, id);
    ListedIds(Listing(m), id);
    IncreasingCounts(wanted, id);
    IncreasingCounts(listed, id);
    OthersCounts(known, listed, wanted, true, id);
    OthersCounts(known, listed, wanted, false, id);
    assert RecordIds(ReferencedRecords(known, wanted)) == wanted;
    RecordIdsConcat(ReferencedRecords(known, wanted), Others(known, listed, wanted, true), Others(known, listed, wanted, false), id);
  }

  lemma {:induction false} OthersOf(known: map<string, Listed>, ids: seq<string>, references: seq<string>, available: bool)
    requires Filed(known)
    ensures forall r | r in Others(known, ids, references, available) ::
              r.item.id !in references && r.available == available && r.unreferenced && Lookup(known, r.item.id) == Listed(r.item, available)
  {
    if ids != [] { OthersOf(known, ids[1..], references, available); }
  }

  lemma ReferencedOf(known: map<string, Listed>, ids: seq<string>, r: Record)
    requires Filed(known) && r in ReferencedRecords(known, ids)
    ensures r.item.id in ids && r.unreferenced == r.item.ownMark && Lookup(known, r.item.id) == Listed(r.item, r.available)
  {
    var i :| 0 <= i < |ids| && ReferencedRecords(known, ids)[i] == r;
    assert r.item.id == ids[i];
  }

  // Each record says of its identity what the listing says.
  lemma RecordStatus(m: Manifest, references: seq<string>, r: Record)
    requires r in Records(m, references)
    ensures var l := Lookup(Known(Listing(m)), r.item.id);
            r.available == l.available && r.item == l.item
            && (r.item.id in references && r.item.id != "" ==> r.unreferenced == r.item.ownMark)
            && (r.item.id !in references || r.item.id == "" ==> r.unreferenced)
  {
    var known, wanted := Known(Listing(m)), SortedSet(NonEmpty(references));
    var listed := SortedSet(IdsListed(Listing(m)));
    KnownIsFiled(Listing(m));
    SortedSetOk(NonEmpty(references));
    NonEmptyOf(references, r.item.id);
    OthersOf(known, listed, wanted, true);
    OthersOf(known, listed, wanted, false);
    if r in ReferencedRecords(known, wanted) { ReferencedOf(known, wanted, r); }
  }

  lemma CountedPositive(rs: seq<Record>, r: Record)
    requires r in rs
    ensures multiset(RecordIds(rs))[r.item.id] > 0
  {
    var i :| 0 <= i < |rs| && rs[i] == r;
    assert RecordIds(rs)[i] == r.item.id;
  }

  lemma {:induction false} OfStatusOf(rs: seq<Record>, available: bool)
    ensures forall r :: r in OfStatus(rs, available) <==> r in rs && r.available == available
  {
    if rs != [] {
      OfStatusOf(rs[1..], available);
      assert rs[0] in rs;
    }
  }

  lemma {:induction false} StatusCounts(rs: seq<Record>, id: string)
    ensures multiset(RecordIds(OfStatus(rs, true)))[id] + multiset(RecordIds(OfStatus(rs, false)))[id] == multiset(RecordIds(rs))[id]
  {
    if rs != [] {
      StatusCounts(rs[1..], id);
      assert RecordIds(rs) == [rs[0].item.id] + RecordIds(rs[1..]);
      ConsIds(rs[0], OfStatus(rs[1..], true));
      ConsIds(rs[0], OfStatus(rs[1..], false));
      assert [] + OfStatus(rs[1..], true) == OfStatus(rs[1..], true) && [] + OfStatus(rs[1..], false) == OfStatus(rs[1..], false);
    }
  }

  lemma ConsIds(r: Record, rest: seq<Record>)
    ensures RecordIds([r] + rest) == [r.item.id] + RecordIds(rest)
  {}

  // Normalisation partitions: across available and missing every identity mentioned appears exactly once.
  lemma NormalizePartitions(m: Manifest, references: seq<string>, id: string)
    ensures var n := Normalize(m, references);
            multiset(RecordIds(n.available))[id] + multiset(RecordIds(n.missing))[id] == if Mentioned(m, references, id) then 1 else 0
  {
    OneRecordEach(m, references, id);
    StatusCounts(Records(m, references), id);
  }

  // An identity survives as available exactly when it is listed once overall, and as available.
  lemma AvailableExactly(m: Manifest, references: seq<string>, id: string)
    ensures id in RecordIds(Normalize(m, references).available) <==>
              CountId(Listing(m), id) == 1 && exists item :: item in m.available && item.id == id && id != ""
  {
    var rs, rows := Records(m, references), Listing(m);
    var n := Normalize(m, references);
    OfStatusOf(rs, true);
    KnownExactly(rows, id);
    RowsOf(m.available, true);
    RowsOf(m.missing, false);
    OneRecordEach(m, references, id);
    if id in RecordIds(n.available) {
      var i :| 0 <= i < |n.available| && RecordIds(n.available)[i] == id;
      var r := n.available[i];
      RecordStatus(m, references, r);
      assert Known(rows)[id] in rows && Known(rows)[id].item in m.available;
    }
    if CountId(rows, id) == 1 && exists item :: item in m.available && item.id == id && id != "" {
      var item :| item in m.available && item.id == id && id != "";
      assert Listed(item, true) in Rows(m.available, true);
      CountedOnceIsIt(rows, Listed(item, true));
      assert id in multiset(RecordIds(rs));
      var i :| 0 <= i < |rs| && RecordIds(rs)[i] == id;
      RecordStatus(m, references, rs[i]);
      assert rs[i] in n.available;
      CountedPositive(n.available, rs[i]);
    }
  }

  lemma {:induction false} ReferencedIdsOf(rs: seq<Record>, id: string)
    ensures id in ReferencedIds(rs) <==> exists r :: r in rs && !r.unreferenced && r.item.id == id
  {
    if rs != [] {
      ReferencedIdsOf(rs[1..], id);
      assert rs[0] in rs;
    }
  }

  // What is reported as referenced is what is referenced, except where the one row that lists it brings its own
  // "unreferenced" mark.
  lemma ReferencedExactly(m: Manifest, references: seq<string>, id: string)
    ensures id in Normalize(m, references).referenced <==>
              && id != "" && id in references
              && !(CountId(Listing(m), id) == 1 && exists row :: row in Listing(m) && row.item.id == id && row.item.ownMark)
  {
    var rs := Records(m, references);
    ReferencedIdsOf(rs, id);
    OneRecordEach(m, references, id);
    MarkKnown(Listing(m), id);
    if id in Normalize(m, references).referenced {
      var r :| r in rs && !r.unreferenced && r.item.id == id;
      RecordStatus(m, references, r);
    }
    if id != "" && id in references {
      assert id in multiset(RecordIds(rs));
      var i :| 0 <= i < |rs| && RecordIds(rs)[i] == id;
      RecordStatus(m, references, rs[i]);
    }
  }

  lemma MarkKnown(rows: seq<Listed>, id: string)
    ensures Lookup(Known(rows), id).item.ownMark <==>
              CountId(rows, id) == 1 && exists row :: row in rows && row.item.id == id && row.item.ownMark
  {
    KnownExactly(rows, id);
    if CountId(rows, id) == 1 {
      forall row | row in rows && row.item.id == id ensures Known(rows)[id] == row { CountedOnceIsIt(rows, row); }
    }
  }

  // A referenced row with such a mark: it is available, and not reported as referenced.
  lemma OwnMarkHides(sha256: string)
    ensures var n := Normalize(Manifest([Item("a", sha256, NoSize, "", true)], []), ["a"]);
            "a" !in n.referenced && "a" in RecordIds(n.available)
  {
    var item := Item("a", sha256, NoSize, "", true);
    var m := Manifest([item], []);
    assert [item][1..] == [] && Rows([], true) == [] && Rows([], false) == [];
    assert Listing(m) == [Listed(item, true)];
    OneRow(Listed(item, true));
    ReferencedExactly(m, ["a"], "a");
    AvailableExactly(m, ["a"], "a");
    assert item in m.available;
  }

  lemma OneRow(row: Listed)
    ensures Known([row]) == map[row.item.id := row] && CountId([row], row.item.id) == 1
  {
    assert [row][..0] == [];
    assert Known([]) == map[] && CountId([], row.item.id) == 0;
  }

  /******* what may be packaged *******/

  // An available row is packaged exactly when a loader is there, its identity is a plain file name, and the loader's asset
  // is this one, of this project, with content of the captured digest and size and within both limits.
  lemma PacksExactly(x: Context, r: Record, total: nat)
    ensures Packs(x, r, total) <==>
              && r.available && x.loader.Some? && SafeId(r.item.id)
              && exists filename, content ::
                   && x.loader.value(r.item.id) == Some(Asset(r.item.id, x.project, filename, Some(content))) && x.project != ""
                   && Sha256Text(r.item.sha256) && x.digest(content) == r.item.sha256
                   && (r.item.size == NoSize || r.item.size == SizeIs(|content|))
                   && |content| <= 26214400 && |content| + total <= 67108864
  {
    if Packs(x, r, total) {
      var asset := x.loader.value(r.item.id).value;
      assert asset == Asset(r.item.id, x.project, asset.filename, Some(asset.content.value));
    }
  }

  // Letters, digits, underscore and hyphen, and from the second place on full stops; one to 255 of them.
  lemma SafeIdReads(n: nat)
    ensures SafeId(T.Repeat('z', n)) <==> 1 <= n <= 255
    ensures IdChar('a') && IdChar('z') && IdChar('A') && IdChar('Z') && IdChar('0') && IdChar('9') && IdChar('_') && IdChar('-')
    ensures forall c | IdChar(c) :: c != '/' && c != '\\' && c != '.' && c != ' ' && c as int >= 32
    ensures forall id | SafeId(id) :: id[0] != '.' && '/' !in id && '\\' !in id
    ensures SafeId("a.b") && !SafeId(".a")
  {
    if n > 0 { assert T.Repeat('z', n)[0] == 'z'; }
    assert "a.b"[1..] == ".b";
  }

  // A digest is spelled in 64 lower-case hexadecimal digits.
  lemma Sha256Reads(c: char, n: nat)
    requires n > 0
    ensures Sha256Text(T.Repeat(c, n)) <==> n == 64 && c in "0123456789abcdef"
  {
    assert T.Repeat(c, n)[0] in T.Repeat(c, n);
  }

  // Row by row: the ones that may be packaged, given what was packaged before, are, under the asset's own file name if it
  // has one and with the size of its bytes; every other becomes a missing row.
  lemma {:induction false} ResolvedAt(x: Context, rs: seq<Record>, i: nat)
    requires i < |rs|
    ensures |Resolve(x, rs).records| == |rs|
    ensures var r, p := rs[i], Resolve(x, rs);
            if Packs(x, r, Resolve(x, rs[..i]).total) then
              var asset := x.loader.value(r.item.id).value;
              && p.records[i] == r.(item := r.item.(filename := if asset.filename == "" then r.item.filename else asset.filename,
                                                    size := SizeIs(|asset.content.value|)))
              && r.item.id in p.binaries
              && ((forall j | i < j < |rs| :: rs[j].item.id != r.item.id) ==> p.binaries[r.item.id] == asset.content.value)
            else p.records[i] == r.(available := false)
  {
    var n := |rs| - 1;
    if i < n {
      ResolvedAt(x, rs[..n], i);
      assert rs[..n][..i] == rs[..i] && rs[..n][i] == rs[i];
    } else if n > 0 {
      ResolvedAt(x, rs[..n], 0);
    }
  }

  // How often an identity is listed is how often it stands among the available and the missing rows together.
  lemma {:induction false} ListedCounts(m: Manifest, id: string)
    requires id != ""
    ensures CountId(Listing(m), id) == multiset(ItemIds(m.available))[id] + multiset(ItemIds(m.missing))[id]
  {
    RowsCount(m.available, true, id);
    RowsCount(m.missing, false, id);
    CountConcat(Rows(m.available, true), Rows(m.missing, false), id);
  }

  function ItemIds(items: seq<Item>): seq<string> {
    seq(|items|, i requires 0 <= i < |items| => items[i].id)
  }

  lemma {:induction false} RowsCount(items: seq<Item>, available: bool, id: string)
    requires id != ""
    ensures CountId(Rows(items, available), id) == multiset(ItemIds(items))[id]
  {
    if items != [] {
      RowsCount(items[1..], available, id);
      ItemIdsCount(items[0], items[1..], id);
      assert items == [items[0]] + items[1..];
      if items[0].id == "" {
        assert [] + Rows(items[1..], available) == Rows(items[1..], available);
      } else {
        CountCons(Listed(items[0], available), Rows(items[1..], available), id);
      }
    }
  }

  lemma ItemIdsCount(item: Item, items: seq<Item>, id: string)
    ensures multiset(ItemIds([item] + items))[id] == (if item.id == id then 1 else 0) + multiset(ItemIds(items))[id]
  {
    assert ItemIds([item] + items) == [item.id] + ItemIds(items);
  }

  lemma CountCons(row: Listed, rows: seq<Listed>, id: string)
    ensures CountId([row] + rows, id) == (if row.item.id == id then 1 else 0) + CountId(rows, id)
  {
    CountConcat([row], rows, id);
    assert [row][..0] == [];
  }

  lemma {:induction false} CountConcat(a: seq<Listed>, b: seq<Listed>, id: string)
    ensures CountId(a + b, id) == CountId(a, id) + CountId(b, id)
  {
    if b == [] {
      assert a + b == a;
    } else {
      CountConcat(a, b[..|b| - 1], id);
      assert (a + b)[..|a + b| - 1] == a + b[..|b| - 1];
    }
  }

  /******* what is packaged *******/

  lemma {:induction false} ResolveKeepsIds(x: Context, rs: seq<Record>)
    ensures RecordIds(Resolve(x, rs).records) == RecordIds(rs)
  {
    if rs != [] {
      ResolveKeepsIds(x, rs[..|rs| - 1]);
      assert RecordIds(rs) == RecordIds(rs[..|rs| - 1]) + [rs[|rs| - 1].item.id];
    }
  }

  function SizeOfAll(x: Context, rs: seq<Record>): nat {
    if rs == [] then 0
    else SizeOfAll(x, rs[..|rs| - 1]) + if rs[|rs| - 1].available && rs[|rs| - 1].item.size.SizeIs? && rs[|rs| - 1].item.size.n >= 0
                                        then rs[|rs| - 1].item.size.n else 0
  }

  predicate Verified(x: Context, r: Record, binaries: map<string, Bytes>) {
    && r.item.id in binaries
    && x.digest(binaries[r.item.id]) == r.item.sha256 && Sha256Text(r.item.sha256)
    && |binaries[r.item.id]| <= MAX_RESOURCE_BYTES && r.item.size == SizeIs(|binaries[r.item.id]|)
  }

  // Rows marked available are exactly the ones with bytes, their bytes meet the captured digest and the limits,
  // and all of them together stay within the package's.
  ghost predicate PackingOk(x: Context, p: Packing) {
    && (forall r | r in p.records && r.available :: Verified(x, r, p.binaries))
    && (forall id | id in p.binaries :: exists r :: r in p.records && r.available && r.item.id == id)
    && p.total == SizeOfAll(x, p.records) && p.total <= MAX_PACKAGE_RESOURCE_BYTES
  }

  lemma {:induction false} ResolveVerifies(x: Context, rs: seq<Record>)
    requires forall i, j | 0 <= i < j < |rs| :: rs[i].item.id != rs[j].item.id
    ensures PackingOk(x, Resolve(x, rs))
  {
    if rs != [] {
      var front, r := rs[..|rs| - 1], rs[|rs| - 1];
      var p := Resolve(x, front);
      ResolveVerifies(x, front);
      ResolveKeepsIds(x, front);
      forall q | q in p.records ensures q.item.id != r.item.id {
        var i :| 0 <= i < |p.records| && p.records[i] == q;
        assert RecordIds(p.records)[i] == RecordIds(front)[i];
      }
      if Packs(x, r, p.total) { PackOneMore(x, p, r, PackedRecord(x, r), ContentOf(x, r)); } else { PassOne(x, p, r.(available := false)); }
    }
  }

  lemma PassOne(x: Context, p: Packing, last: Record)
    requires PackingOk(x, p) && !last.available
    ensures PackingOk(x, p.(records := p.records + [last]))
  {
    var records := p.records + [last];
    assert records[..|p.records|] == p.records;
    forall id | id in p.binaries ensures exists r :: r in records && r.available && r.item.id == id {
      var r :| r in p.records && r.available && r.item.id == id;
      assert r in records;
    }
  }

  lemma PackOneMore(x: Context, p: Packing, r: Record, last: Record, content: Bytes)
    requires PackingOk(x, p) && Packs(x, r, p.total) && last == PackedRecord(x, r) && content == ContentOf(x, r)
    requires forall q | q in p.records :: q.item.id != r.item.id
    ensures PackingOk(x, Packing(p.records + [last], p.binaries[r.item.id := content], p.total + |content|))
  {
    var records, binaries := p.records + [last], p.binaries[r.item.id := content];
    assert records[..|p.records|] == p.records && last in records;
    assert Verified(x, last, binaries);
    forall q | q in records && q.available ensures Verified(x, q, binaries) {
      if q != last { assert Verified(x, q, p.binaries); }
    }
    forall id | id in binaries ensures exists q :: q in records && q.available && q.item.id == id {
      if id in p.binaries {
        var q :| q in p.records && q.available && q.item.id == id;
        assert q in records;
      }
    }
  }

  lemma TwiceCounts(ids: seq<string>, i: nat, j: nat)
    requires i < j < |ids| && ids[i] == ids[j]
    ensures multiset(ids)[ids[i]] >= 2
  {
    assert ids == ids[..j] + [ids[j]] + ids[j + 1..];
    assert ids[..j][i] == ids[i];
  }

  lemma {:induction false} CountAtMostOneDistinct(rs: seq<Record>)
    requires forall id :: multiset(RecordIds(rs))[id] <= 1
    ensures forall i, j | 0 <= i < j < |rs| :: rs[i].item.id != rs[j].item.id
  {
    forall i, j | 0 <= i < j < |rs| ensures rs[i].item.id != rs[j].item.id {
      var ids := RecordIds(rs);
      if ids[i] == ids[j] {
        TwiceCounts(ids, i, j);
      }
    }
  }

  lemma NormalizedDistinct(m: Manifest, references: seq<string>)
    ensures var n := Normalize(m, references);
            forall i, j | 0 <= i < j < |n.available + n.missing| ::
              (n.available + n.missing)[i].item.id != (n.available + n.missing)[j].item.id
  {
    var n := Normalize(m, references);
    var all := n.available + n.missing;
    forall id ensures multiset(RecordIds(all))[id] <= 1 {
      NormalizePartitions(m, references, id);
      assert RecordIds(all) == RecordIds(n.available) + RecordIds(n.missing);
    }
    CountAtMostOneDistinct(all);
  }

  lemma ResolvedIds(records: seq<Record>, all: seq<Record>, a: seq<Record>, b: seq<Record>, id: string)
    requires RecordIds(records) == RecordIds(all) && all == a + b
    ensures multiset(RecordIds(OfStatus(records, true)))[id] + multiset(RecordIds(OfStatus(records, false)))[id] ==
              multiset(RecordIds(a))[id] + multiset(RecordIds(b))[id]
  {
    StatusCounts(records, id);
    assert RecordIds(all) == RecordIds(a) + RecordIds(b);
  }

  lemma PackagedIds(x: Context, p: Packing, id: string)
    requires PackingOk(x, p)
    ensures id in p.binaries <==> id in RecordIds(OfStatus(p.records, true))
    ensures forall row | row in OfStatus(p.records, true) :: Verified(x, row, p.binaries)
  {
    var rows := OfStatus(p.records, true);
    OfStatusOf(p.records, true);
    if id in p.binaries {
      var row :| row in p.records && row.available && row.item.id == id;
      CountedPositive(rows, row);
    }
    if id in RecordIds(rows) {
      var i :| 0 <= i < |rows| && RecordIds(rows)[i] == id;
      assert rows[i] in rows;
    }
  }

  // The result of a resolution that goes through: the partition still holds; the packaged identities are the keys of
  // the binaries; every one of them has the captured digest, its own size and both limits.
  lemma ResolutionSound(x: Context, m: Manifest, references: seq<string>, policy: Policy, id: string)
    requires ResolveResources(x, m, references, policy).Ok?
    ensures var r := ResolveResources(x, m, references, policy).value;
            && multiset(RecordIds(r.available))[id] + multiset(RecordIds(r.missing))[id] ==
                 (if Mentioned(m, references, id) then 1 else 0)
            && (id in r.binaries <==> id in RecordIds(r.available))
            && (forall row | row in r.available :: Verified(x, row, r.binaries))
  {
    var n := Normalize(m, references);
    var all := n.available + n.missing;
    NormalizedDistinct(m, references);
    ResolveVerifies(x, all);
    ResolveKeepsIds(x, all);
    NormalizePartitions(m, references, id);
    ResolvedIds(Resolve(x, all).records, all, n.available, n.missing, id);
    PackagedIds(x, Resolve(x, all), id);
  }

  // All packaged bytes together stay within the package limit.
  lemma PackageWithinLimit(x: Context, m: Manifest, references: seq<string>)
    ensures var n := Normalize(m, references);
            SizeOfAll(x, Resolve(x, n.available + n.missing).records) <= MAX_PACKAGE_RESOURCE_BYTES
  {
    NormalizedDistinct(m, references);
    ResolveVerifies(x, Normalize(m, references).available + Normalize(m, references).missing);
  }

  // Under RequireAll the call fails exactly when something is missing; under AllowMissing it never fails.
  lemma PolicyExactly(x: Context, m: Manifest, references: seq<string>)
    ensures ResolveResources(x, m, references, AllowMissing).Ok?
    ensures ResolveResources(x, m, references, RequireAll).Ok? <==> ResolveResources(x, m, references, AllowMissing).value.missing == []
  {}

  /******* the archive *******/

  lemma {:induction false} DecimalLength(n: nat)
    ensures |T.Decimal(n)| >= 1 && (|T.Decimal(n)| == 1 <==> n < 10) && (|T.Decimal(n)| <= 2 <==> n < 100)
    ensures n >= 1 ==> T.Decimal(n)[0] != '0'
  {
    if n >= 10 {
      DecimalLength(n / 10);
      assert T.Decimal(n)[0] == T.Decimal(n / 10)[0];
    }
  }

  // Padding to three digits loses nothing: the digits after the leading zeros are the numeral.
  function Unpadded(s: string): string {
    if s == "" || s[0] != '0' then s else Unpadded(s[1..])
  }

  lemma {:induction false} UnpadRepeat(k: nat, s: string)
    requires s == "" || s[0] != '0'
    ensures Unpadded(T.Repeat('0', k) + s) == s
  {
    if k == 0 {
      assert T.Repeat('0', 0) + s == s;
    } else {
      assert (T.Repeat('0', k) + s)[1..] == T.Repeat('0', k - 1) + s;
      UnpadRepeat(k - 1, s);
    }
  }

  lemma PaddedInjective(m: nat, n: nat)
    requires m >= 1 && n >= 1 && Padded(m) == Padded(n)
    ensures m == n
  {
    DecimalLength(m);
    DecimalLength(n);
    UnpadRepeat(if |T.Decimal(m)| < 3 then 3 - |T.Decimal(m)| else 0, T.Decimal(m));
    UnpadRepeat(if |T.Decimal(n)| < 3 then 3 - |T.Decimal(n)| else 0, T.Decimal(n));
    T.DecimalInjective(m, n);
  }

  lemma PaddedDigits(n: nat)
    ensures '-' !in Padded(n) && '/' !in Padded(n)
  {
    assert forall c | c in Padded(n) :: c == '0' || c in T.Decimal(n);
  }

  lemma UpToDash(a: string, x: string, b: string, y: string)
    requires '-' !in a && '-' !in b && a + ("-" + x) == b + ("-" + y)
    ensures a == b
  {
    var s := a + ("-" + x);
    assert s[|a|] == '-' && s[|b|] == '-';
    assert |a| == |b| by { assert s[..|a|] == a && s[..|b|] == b; }
    assert s[..|a|] == a && s[..|b|] == b;
  }

  // Members of different rows have different paths, whatever their file names.
  lemma PathsDiffer(m: nat, n: nat, f: string, g: string)
    requires m >= 1 && n >= 1 && m != n
    ensures MemberPath(m, f) != MemberPath(n, g)
  {
    var x := if |MemberName(m, f)| > 180 then MemberName(m, f)[..180] else MemberName(m, f);
    var y := if |MemberName(n, g)| > 180 then MemberName(n, g)[..180] else MemberName(n, g);
    if MemberPath(m, f) == MemberPath(n, g) {
      var head := "resources/";
      assert (head + (Padded(m) + ("-" + x)))[10..] == Padded(m) + ("-" + x);
      assert (head + (Padded(n) + ("-" + y)))[10..] == Padded(n) + ("-" + y);
      PaddedDigits(m);
      PaddedDigits(n);
      UpToDash(Padded(m), x, Padded(n), y);
      PaddedInjective(m, n);
    }
  }

  predicate SafeChar(c: char) { c != '/' && c != '\\' && c as int >= 32 && c as int != 127 }

  lemma PaddedSafe(n: nat)
    ensures forall c | c in Padded(n) :: SafeChar(c)
  {
    assert forall c | c in Padded(n) :: c == '0' || c in T.Decimal(n);
  }

  lemma DefaultSafe(n: nat)
    ensures forall c | c in DefaultName(n) :: SafeChar(c)
  {
    PaddedSafe(n);
    assert forall c | c in DefaultName(n) :: c in "asset-" || c in Padded(n) || c in ".bin";
  }

  lemma NameSafe(n: nat, f: string)
    ensures forall c | c in MemberName(n, f) :: SafeChar(c)
  {
    DefaultSafe(n);
    var raw := if f == "" then DefaultName(n) else f;
    assert forall c | c in Clean(raw) :: SafeChar(c);
  }

  lemma {:induction false} StripEndsExactly(s: string)
    ensures var r := StripEnds(s);
            && (r != "" ==> r[0] != ' ' && r[0] != '.' && r[|r| - 1] != ' ' && r[|r| - 1] != '.')
            && (s != "" && s[0] != ' ' && s[0] != '.' && s[|s| - 1] != ' ' && s[|s| - 1] != '.' ==> r == s)
    ensures StripEnds(s) == "" <==> forall c | c in s :: c == ' ' || c == '.'
    decreases |s|
  {
    if s != "" {
      if s[0] == ' ' || s[0] == '.' {
        StripEndsExactly(s[1..]);
        assert forall c :: c in s <==> c == s[0] || c in s[1..];
      } else if s[|s| - 1] == ' ' || s[|s| - 1] == '.' {
        StripEndsExactly(s[..|s| - 1]);
        assert s[0] in s && s[0] == s[..|s| - 1][0] && s[0] in s[..|s| - 1];
      } else {
        assert s[0] in s;
      }
    }
  }

  lemma PaddedReads(n: nat)
    ensures Padded(7) == "007" && Padded(42) == "042" && Padded(123) == "123" && Padded(1234) == "1234"
    ensures DefaultName(7) == "asset-007.bin"
  {
    assert T.Decimal(4) == "4" && T.Decimal(42) == "42" && T.Decimal(1) == "1" && T.Decimal(12) == "12" && T.Decimal(123) == "123";
    assert T.Decimal(1234) == "1234";
    assert T.Repeat('0', 2) == "00" && T.Repeat('0', 1) == "0" && T.Repeat('0', 0) == "";
  }

  // A file name that needs no cleaning is kept, up to 180 characters of it; one that is empty, or nothing but spaces and
  // full stops, gives way to a numbered name; and no name starts or ends with a space or a full stop.
  lemma NameKept(n: nat, f: string)
    ensures f != "" && (forall c | c in f :: SafeChar(c)) && f[0] !in " ." && f[|f| - 1] !in " ." ==> MemberName(n, f) == f
    ensures (forall c | c in f :: c in " .") ==> MemberName(n, f) == "asset-" + Padded(n) + ".bin"
    ensures var name := MemberName(n, f);
            name != "" && name[0] !in " ." && name[|name| - 1] !in " ."
  {
    var raw := if f == "" then DefaultName(n) else f;
    if forall c | c in raw :: SafeChar(c) {
      assert forall i | 0 <= i < |raw| :: SafeChar(raw[i]);
      assert Clean(raw) == raw;
    }
    if forall c | c in f :: c in " ." {
      assert forall c | c in f :: SafeChar(c);
      if f == "" { DefaultSafe(n); }
    }
    StripEndsExactly(Clean(raw));
  }

  // A member lies directly in `resources/`: its own name holds no separator and no control character.
  lemma PathStaysInside(n: nat, f: string)
    ensures |MemberPath(n, f)| > 10 && MemberPath(n, f)[..10] == "resources/"
    ensures forall c | c in MemberPath(n, f)[10..] :: SafeChar(c)
  {
    var name := MemberName(n, f);
    var cut := if |name| > 180 then name[..180] else name;
    NameSafe(n, f);
    PaddedSafe(n);
    assert MemberPath(n, f)[10..] == Padded(n) + ("-" + cut);
    assert forall c | c in Padded(n) + ("-" + cut) :: c in Padded(n) || c == '-' || c in name;
  }

  predicate DistinctPaths(files: seq<Member>) {
    forall i, j | 0 <= i < j < |files| :: files[i].path != files[j].path
  }

  lemma {:induction false} PutFresh(files: seq<Member>, path: string, content: Bytes)
    requires path !in Paths(files)
    ensures Put(files, path, content) == files + [Member(path, content)]
  {
    if files != [] {
      assert Paths(files)[0] == files[0].path && Paths(files[1..]) == Paths(files)[1..];
      PutFresh(files[1..], path, content);
    }
  }

  function AllPaths(rows: seq<Record>, n: nat): (paths: seq<string>)
    requires n <= |rows|
    ensures |paths| == n
  {
    if n == 0 then [] else AllPaths(rows, n - 1) + [MemberPath(n, rows[n - 1].item.filename)]
  }

  lemma {:induction false} AllPathsAt(rows: seq<Record>, n: nat, i: nat)
    requires i < n <= |rows|
    ensures AllPaths(rows, n)[i] == MemberPath(i + 1, rows[i].item.filename)
  {
    if i < n - 1 { AllPathsAt(rows, n - 1, i); }
  }

  predicate NoRepeats(paths: seq<string>) {
    forall i, j | 0 <= i < j < |paths| :: paths[i] != paths[j]
  }

  lemma RowPathsDiffer(rows: seq<Record>, n: nat, i: nat, j: nat)
    requires i < j < n <= |rows|
    ensures AllPaths(rows, n)[i] != AllPaths(rows, n)[j]
  {
    AllPathsAt(rows, n, i);
    AllPathsAt(rows, n, j);
    PathsDiffer(i + 1, j + 1, rows[i].item.filename, rows[j].item.filename);
  }

  lemma AllPathsApart(rows: seq<Record>, n: nat)
    requires n <= |rows|
    ensures NoRepeats(AllPaths(rows, n))
  {
    var paths := AllPaths(rows, n);
    forall i: nat, j: nat | i < j < n ensures paths[i] != paths[j] { RowPathsDiffer(rows, n, i, j); }
  }

  // One member for each row, at the given paths, with the row's bytes.
  predicate Staged(files: seq<Member>, paths: seq<string>, rows: seq<Record>, binaries: map<string, Bytes>) {
    && |files| == |paths| <= |rows|
    && forall i | 0 <= i < |paths| ::
         files[i].path == paths[i] && rows[i].item.id in binaries && files[i].content == binaries[rows[i].item.id]
  }

  lemma {:induction false} PutAllFresh(files: seq<Member>, more: seq<Member>)
    requires DistinctPaths(files + more)
    ensures PutAll(files, more) == files + more
  {
    if more == [] {
      assert files + [] == files;
    } else {
      var front, last := more[..|more| - 1], more[|more| - 1];
      forall i, j | 0 <= i < j < |files + front| ensures (files + front)[i].path != (files + front)[j].path {
        assert (files + front)[i] == (files + more)[i] && (files + front)[j] == (files + more)[j];
      }
      PutAllFresh(files, front);
      forall i | 0 <= i < |files + front| ensures (files + front)[i].path != last.path {
        assert (files + front)[i] == (files + more)[i] && (files + more)[|files + more| - 1] == last;
      }
      PutFresh(files + front, last.path, last.content);
      assert (files + front) + [last] == files + more;
    }
  }

  function RowMembers(rows: seq<Record>, binaries: map<string, Bytes>, n: nat): (files: seq<Member>)
    requires n <= |rows| && forall i | 0 <= i < n :: rows[i].item.id in binaries
    ensures |files| == n
  {
    seq(n, i requires 0 <= i < n => Member(MemberPath(i + 1, rows[i].item.filename), binaries[rows[i].item.id]))
  }

  lemma {:induction false} FilesArePuts(rows: seq<Record>, binaries: map<string, Bytes>, n: nat)
    requires n <= |rows| && forall i | 0 <= i < n :: rows[i].item.id in binaries
    ensures ResourceFiles(rows, binaries, n) == PutAll([], RowMembers(rows, binaries, n))
  {
    if n > 0 {
      FilesArePuts(rows, binaries, n - 1);
      assert RowMembers(rows, binaries, n)[..n - 1] == RowMembers(rows, binaries, n - 1);
    }
  }

  lemma MembersApart(rows: seq<Record>, binaries: map<string, Bytes>, n: nat)
    requires n <= |rows| && forall i | 0 <= i < n :: rows[i].item.id in binaries
    ensures DistinctPaths(RowMembers(rows, binaries, n)) && Staged(RowMembers(rows, binaries, n), AllPaths(rows, n), rows, binaries)
  {
    AllPathsApart(rows, n);
    forall i | 0 <= i < n ensures RowMembers(rows, binaries, n)[i].path == AllPaths(rows, n)[i] { AllPathsAt(rows, n, i); }
  }

  // Staging the packaged rows overwrites nothing: one member for each, under its own number.
  lemma ResourceFilesStaged(rows: seq<Record>, binaries: map<string, Bytes>, n: nat)
    requires n <= |rows| && forall i | 0 <= i < n :: rows[i].item.id in binaries
    ensures Staged(ResourceFiles(rows, binaries, n), AllPaths(rows, n), rows, binaries)
  {
    var members := RowMembers(rows, binaries, n);
    FilesArePuts(rows, binaries, n);
    MembersApart(rows, binaries, n);
    assert [] + members == members;
    PutAllFresh([], members);
  }

  // The archive's members are exactly the manifest's file list.
  lemma ManifestListsMembers(files: seq<Member>, manifest: Bytes)
    requires MANIFEST_NAME !in Paths(files)
    ensures ArchiveMembers(files, manifest) == ManifestList(files)
  {
    PutFresh(files, MANIFEST_NAME, manifest);
    assert Paths(files + [Member(MANIFEST_NAME, manifest)]) == Paths(files) + [MANIFEST_NAME];
  }

  /******* the three packages *******/

  predicate OutsideResources(fixed: seq<Member>) {
    DistinctPaths(fixed) && forall i | 0 <= i < |fixed| :: !("resources/" <= fixed[i].path) && fixed[i].path != MANIFEST_NAME
  }

  lemma FixedFilesOutside(kind: PackageKind, texts: seq<Bytes>)
    requires |texts| == |FixedNames(kind)|
    ensures OutsideResources(FixedFiles(kind, texts))
  {
    var names, fixed := FixedNames(kind), FixedFiles(kind, texts);
    assert "storyboard.html"[0] == 's' && "shots.csv"[1] == 'h' && "screenplay.fountain"[1] == 'c';
    assert |"screenplay.fountain"| == 19 && |"screenplay.docx"| == 15;
    forall i, j | 0 <= i < j < |names| ensures names[i] != names[j] { assert names[i][1] != names[j][1] || |names[i]| != |names[j]|; }
    forall i | 0 <= i < |names| ensures !("resources/" <= names[i]) && names[i] != MANIFEST_NAME {
      assert names[i][0] == 's' && "resources/"[0] == 'r' && MANIFEST_NAME[0] == 'm';
    }
  }

  lemma WholePackageDistinct(fixed: seq<Member>, staged: seq<Member>, paths: seq<string>, rows: seq<Record>, binaries: map<string, Bytes>)
    requires OutsideResources(fixed) && Staged(staged, paths, rows, binaries) && NoRepeats(paths)
    requires forall i | 0 <= i < |paths| :: "resources/" <= paths[i]
    ensures DistinctPaths(fixed + staged) && MANIFEST_NAME !in Paths(fixed + staged)
    ensures DistinctPaths(staged + fixed) && MANIFEST_NAME !in Paths(staged + fixed)
  {
    var files, other := fixed + staged, staged + fixed;
    forall i | 0 <= i < |files| ensures files[i] == if i < |fixed| then fixed[i] else staged[i - |fixed|] {}
    forall i | 0 <= i < |other| ensures other[i] == if i < |staged| then staged[i] else fixed[i - |staged|] {}
    assert MANIFEST_NAME[0] != "resources/"[0];
  }

  lemma AllPathsInside(rows: seq<Record>, n: nat)
    requires n <= |rows|
    ensures forall i | 0 <= i < n :: "resources/" <= AllPaths(rows, n)[i]
  {
    forall i | 0 <= i < n ensures "resources/" <= AllPaths(rows, n)[i] { AllPathsAt(rows, n, i); }
  }

  lemma PackagedRowsHaveBytes(x: Context, m: Manifest, references: seq<string>, policy: Policy)
    requires ResolveResources(x, m, references, policy).Ok?
    ensures var r := ResolveResources(x, m, references, policy).value;
            forall i | 0 <= i < |r.available| :: r.available[i].item.id in r.binaries
  {
    var r := ResolveResources(x, m, references, policy).value;
    forall i | 0 <= i < |r.available| ensures r.available[i].item.id in r.binaries {
      ResolutionSound(x, m, references, policy, r.available[i].item.id);
      assert r.available[i] in r.available;
    }
  }

  // A whole package of each kind: its own files and the packaged rows in the order they are put in, each under its own
  // path with nothing overwritten, and listed without gaps by the manifest.
  lemma PackageSound(x: Context, m: Manifest, references: seq<string>, policy: Policy, kind: PackageKind, texts: seq<Bytes>, manifest: Bytes)
    requires ResolveResources(x, m, references, policy).Ok? && |texts| == |FixedNames(kind)|
    ensures var r := ResolveResources(x, m, references, policy).value;
            var staged, fixed := ResourceFiles(r.available, r.binaries, |r.available|), FixedFiles(kind, texts);
            var files := PackageFiles(kind, texts, staged);
            && Staged(staged, AllPaths(r.available, |r.available|), r.available, r.binaries)
            && files == (if kind.Storyboard? then staged + fixed else fixed + staged)
            && DistinctPaths(files) && ArchiveMembers(files, manifest) == ManifestList(files)
  {
    var r := ResolveResources(x, m, references, policy).value;
    var staged, fixed := ResourceFiles(r.available, r.binaries, |r.available|), FixedFiles(kind, texts);
    PackagedRowsHaveBytes(x, m, references, policy);
    ResourceFilesStaged(r.available, r.binaries, |r.available|);
    AllPathsApart(r.available, |r.available|);
    AllPathsInside(r.available, |r.available|);
    FixedFilesOutside(kind, texts);
    WholePackageDistinct(fixed, staged, AllPaths(r.available, |r.available|), r.available, r.binaries);
    if kind.Storyboard? {
      PutAllFresh(staged, fixed);
      ManifestListsMembers(staged + fixed, manifest);
    } else {
      PutAllFresh(fixed, staged);
      ManifestListsMembers(fixed + staged, manifest);
    }
  }
}

/** The loops of the export, each proved to compute its part. */
module ResourceExport {
  import opened Wrappers
  import opened Sorting
  import opened Resources

  // The two dictionaries of the normalisation: an identity lies in at most one of them.
  ghost predicate Split(available: map<string, Item>, missing: map<string, Item>, known: map<string, Listed>) {
    && available.Keys !! missing.Keys && known.Keys == available.Keys + missing.Keys
    && (forall id | id in available :: known[id] == Listed(available[id], true))
    && (forall id | id in missing :: known[id] == Listed(missing[id], false))
  }

  method ClassifyRows(rows: seq<Listed>) returns (available: map<string, Item>, missing: map<string, Item>)
    ensures Split(available, missing, Known(rows))
  {
    available, missing := map[], map[];
    for i := 0 to |rows|
      invariant Split(available, missing, Known(rows[..i]))
    {
      var id := rows[i].item.id;
      assert rows[..i + 1][..i] == rows[..i];
      if id in available || id in missing {
        available := available - {id};
        missing := missing[id := Blank(id)];
      } else if rows[i].available {
        available := available[id := rows[i].item];
      } else {
        missing := missing[id := rows[i].item];
      }
    }
    assert rows[..|rows|] == rows;
  }

  // Each available row in turn: verified and packaged, or turned into a missing one.
  method ResolveRows(x: Context, rs: seq<Record>) returns (records: seq<Record>, binaries: map<string, Bytes>, total: nat)
    ensures Packing(records, binaries, total) == Resolve(x, rs)
  {
    records, binaries, total := [], map[], 0;
    for i := 0 to |rs|
      invariant Packing(records, binaries, total) == Resolve(x, rs[..i])
    {
      var r := rs[i];
      assert rs[..i + 1][..i] == rs[..i];
      if Packs(x, r, total) {
        var content := ContentOf(x, r);
        records := records + [PackedRecord(x, r)];
        binaries := binaries[r.item.id := content];
        total := total + |content|;
      } else {
        records := records + [r.(available := false)];
      }
    }
    assert rs[..|rs|] == rs;
  }

  method StageFiles(rows: seq<Record>, binaries: map<string, Bytes>) returns (files: seq<Member>)
    ensures files == ResourceFiles(rows, binaries, |rows|)
  {
    files := [];
    for i := 0 to |rows|
      invariant files == ResourceFiles(rows, binaries, i)
    {
      if rows[i].item.id in binaries {
        files := Put(files, MemberPath(i + 1, rows[i].item.filename), binaries[rows[i].item.id]);
      }
    }
  }
}
