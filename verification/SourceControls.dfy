/**
 The author's controls over identified context records: the catalog, the choices, and the
 conservative projection once anything is excluded.
 */
module SourceControls {
  import opened Wrappers
  import opened Json
  import T = Text

  type Context = map<string, Json>

  const MAX_SOURCE_ITEMS: nat := 256

  const SECTIONS: seq<string> := ["characters", "locations", "active_foreshadowing", "forbidden_secrets"]

  function KindOf(section: string): string {
    if section == "characters" then "CHARACTER" else if section == "locations" then "LOCATION"
    else if section == "active_foreshadowing" then "FORESHADOWING" else "SECRET"
  }

  // `fingerprint` is the digest of a value's canonical JSON, `show` Python's `str`.
  datatype Env = Env(project: Json, fingerprint: Json -> string, show: Json -> string)

  datatype Error = ControlLimit | IdentityAmbiguous | CatalogLimit | ControlInvalid | ControlDuplicate | UnavailableOrChanged

  datatype Control = Control(key: string, digest: string, keep: bool) | Malformed

  datatype Entry = Entry(
    key: string, kind: string, caption: string, version: Option<int>, digest: string, included: bool, pinned: bool)

  datatype Outcome = Outcome(context: Context, items: seq<Entry>, omitted: bool, unidentified: bool)

  function Rows(context: Context, section: string): seq<Json> {
    if section in context && context[section].JArr? then context[section].items else []
  }

  // `str(row["id"])`, for the types an identity may have.
  function IdText(row: Json): Option<string> {
    if !row.JObj? then None
    else match Get(row.fields, "id")
      case JStr(s) => Some(s)
      case JInt(i) => Some(T.IntText(i))
      case JBool(b) => Some(if b then "True" else "False")
      case _ => None
  }

  predicate Identified(row: Json) {
    IdText(row).Some? && IdText(row).value != ""
  }

  function KeyOf(e: Env, section: string, row: Json): string
    requires IdText(row).Some?
  {
    e.fingerprint(JArr([e.project, JStr(section), JStr(IdText(row).value)]))
  }

  function Label(e: Env, row: Json): string
    requires row.JObj?
  {
    var name, title := Get(row.fields, "name"), Get(row.fields, "title");
    var text := e.show(if Truthy(name) then name else if Truthy(title) then title else Get(row.fields, "id"));
    if |text| > 200 then text[..200] else text
  }

  function EntryOf(e: Env, section: string, row: Json): Entry
    requires Identified(row)
  {
    var v := Get(row.fields, "version");
    Entry(KeyOf(e, section, row), KindOf(section), Label(e, row), if v.JInt? && v.i >= 1 then Some(v.i) else None,
          e.fingerprint(row), true, false)
  }

  /******* the catalog *******/

  predicate HasKey(items: seq<Entry>, key: string) {
    exists i | 0 <= i < |items| :: items[i].key == key
  }

  function AddRow(e: Env, section: string, items: seq<Entry>, row: Json): Result<seq<Entry>, Error> {
    if !Identified(row) then Ok(items)
    else if HasKey(items, KeyOf(e, section, row)) then Err(IdentityAmbiguous)
    else if |items| >= MAX_SOURCE_ITEMS then Err(CatalogLimit)
    else Ok(items + [EntryOf(e, section, row)])
  }

  function AddRows(e: Env, section: string, items: seq<Entry>, rows: seq<Json>): Result<seq<Entry>, Error> {
    if rows == [] then Ok(items)
    else
      var r := AddRows(e, section, items, rows[..|rows| - 1]);
      if r.Err? then r else AddRow(e, section, r.value, rows[|rows| - 1])
  }

  // The first n sections.
  function Catalog(e: Env, context: Context, n: nat): Result<seq<Entry>, Error>
    requires n <= |SECTIONS|
  {
    if n == 0 then Ok([])
    else
      var r := Catalog(e, context, n - 1);
      if r.Err? then r else AddRows(e, SECTIONS[n - 1], r.value, Rows(context, SECTIONS[n - 1]))
  }

  predicate SectionUnidentified(context: Context, section: string) {
    (section in context && !context[section].JArr?) || exists row :: row in Rows(context, section) && !Identified(row)
  }

  /******* the choices *******/

  function Position(items: seq<Entry>, key: string): (i: nat)
    ensures i <= |items| && (i < |items| ==> items[i].key == key) && forall j | 0 <= j < i :: items[j].key != key
  {
    if items == [] || items[0].key == key then 0 else 1 + Position(items[1..], key)
  }

  predicate Chosen(controls: seq<Control>, key: string) {
    exists i | 0 <= i < |controls| :: controls[i].Control? && controls[i].key == key
  }

  function Choose(items: seq<Entry>, earlier: seq<Control>, c: Control): Result<seq<Entry>, Error> {
    if c.Malformed? then Err(ControlInvalid)
    else if Chosen(earlier, c.key) then Err(ControlDuplicate)
    else
      var i := Position(items, c.key);
      if i == |items| || items[i].digest != c.digest then Err(UnavailableOrChanged)
      else Ok(items[i := items[i].(pinned := true, included := c.keep)])
  }

  function ChooseAll(items: seq<Entry>, controls: seq<Control>): Result<seq<Entry>, Error> {
    if controls == [] then Ok(items)
    else
      var front := controls[..|controls| - 1];
      var r := ChooseAll(items, front);
      if r.Err? then r else Choose(r.value, front, controls[|controls| - 1])
  }

  predicate Excludes(controls: seq<Control>, key: string) {
    exists i | 0 <= i < |controls| :: controls[i].Control? && controls[i].key == key && !controls[i].keep
  }

  predicate ExcludesAny(controls: seq<Control>) {
    exists i | 0 <= i < |controls| :: controls[i].Control? && !controls[i].keep
  }

  /******* the projection *******/

  // The rows of a section that are identified, in the catalog, and not excluded.
  function Projected(e: Env, section: string, rows: seq<Json>, items: seq<Entry>, controls: seq<Control>): seq<Json> {
    if rows == [] then []
    else
      var row := rows[|rows| - 1];
      Projected(e, section, rows[..|rows| - 1], items, controls)
      + if IdText(row).Some? && HasKey(items, KeyOf(e, section, row)) && !Excludes(controls, KeyOf(e, section, row))
        then [row] else []
  }

  function Conservative(e: Env, context: Context, items: seq<Entry>, controls: seq<Control>, n: nat): Context
    requires n <= |SECTIONS|
  {
    if n == 0 then (if Get(context, "chapter").JInt? then map["chapter" := context["chapter"]] else map[])
    else Conservative(e, context, items, controls, n - 1)[
           SECTIONS[n - 1] := JArr(Projected(e, SECTIONS[n - 1], Rows(context, SECTIONS[n - 1]), items, controls))]
  }

  function Apply(e: Env, context: Context, controls: seq<Control>, omitDependents: bool): Result<Outcome, Error> {
    if |controls| > MAX_SOURCE_ITEMS then Err(ControlLimit)
    else
      var catalog := Catalog(e, context, |SECTIONS|);
      if catalog.Err? then Err(catalog.error)
      else
        var chosen := ChooseAll(catalog.value, controls);
        if chosen.Err? then Err(chosen.error)
        else
          var omitted := ExcludesAny(controls) || omitDependents;
          Ok(Outcome(if omitted then Conservative(e, context, catalog.value, controls, |SECTIONS|) else context,
                     chosen.value, omitted, exists k :: 0 <= k < |SECTIONS| && SectionUnidentified(context, SECTIONS[k])))
  }
}

/** Exclusion does not leak, and nothing else is touched. */
module SourceControlLaws {
  import opened Wrappers
  import opened Json
  import opened SourceControls

  // What a reader may depend on once something is excluded: identified rows whose key is not excluded.
  function Visible(e: Env, section: string, rows: seq<Json>, controls: seq<Control>): seq<Json> {
    if rows == [] then []
    else
      var row := rows[|rows| - 1];
      Visible(e, section, rows[..|rows| - 1], controls)
      + if Identified(row) && !Excludes(controls, KeyOf(e, section, row)) then [row] else []
  }

  lemma {:induction false} RowsCataloged(e: Env, section: string, items: seq<Entry>, rows: seq<Json>)
    requires AddRows(e, section, items, rows).Ok?
    ensures items <= AddRows(e, section, items, rows).value
    ensures forall row | row in rows && Identified(row) :: HasKey(AddRows(e, section, items, rows).value, KeyOf(e, section, row))
  {
    if rows != [] {
      var front, last := rows[..|rows| - 1], rows[|rows| - 1];
      RowsCataloged(e, section, items, front);
      var before, after := AddRows(e, section, items, front).value, AddRows(e, section, items, rows).value;
      assert before <= after;
      if Identified(last) { assert after[|before|].key == KeyOf(e, section, last); }
      forall row | row in rows && Identified(row) ensures HasKey(after, KeyOf(e, section, row)) {
        if row in front { KeyStays(before, after, KeyOf(e, section, row)); }
      }
    }
  }

  lemma KeyStays(a: seq<Entry>, b: seq<Entry>, key: string)
    requires a <= b && HasKey(a, key)
    ensures HasKey(b, key)
  {
    var i :| 0 <= i < |a| && a[i].key == key;
    assert b[i] == a[i];
  }

  lemma {:induction false} CatalogGrows(e: Env, context: Context, m: nat, n: nat)
    requires m <= n <= |SECTIONS| && Catalog(e, context, n).Ok?
    ensures Catalog(e, context, m).Ok? && Catalog(e, context, m).value <= Catalog(e, context, n).value
  {
    if m < n {
      CatalogGrows(e, context, m, n - 1);
      RowsCataloged(e, SECTIONS[n - 1], Catalog(e, context, n - 1).value, Rows(context, SECTIONS[n - 1]));
    }
  }

  // A catalog that is built holds every identified row of every section.
  lemma CatalogComplete(e: Env, context: Context, k: nat, row: Json)
    requires k < |SECTIONS| && Catalog(e, context, |SECTIONS|).Ok?
    requires row in Rows(context, SECTIONS[k]) && Identified(row)
    ensures HasKey(Catalog(e, context, |SECTIONS|).value, KeyOf(e, SECTIONS[k], row))
  {
    CatalogGrows(e, context, k, |SECTIONS|);
    CatalogGrows(e, context, k + 1, |SECTIONS|);
    RowsCataloged(e, SECTIONS[k], Catalog(e, context, k).value, Rows(context, SECTIONS[k]));
    KeyStays(Catalog(e, context, k + 1).value, Catalog(e, context, |SECTIONS|).value, KeyOf(e, SECTIONS[k], row));
  }

  // A key of an identified row of the context.
  ghost predicate FromRow(e: Env, context: Context, key: string) {
    exists k: nat, row :: k < |SECTIONS| && row in Rows(context, SECTIONS[k]) && Identified(row) && key == KeyOf(e, SECTIONS[k], row)
  }

  lemma {:induction false} RowKeysFromRows(e: Env, context: Context, k: nat, items: seq<Entry>, rows: seq<Json>)
    requires k < |SECTIONS| && forall row | row in rows :: row in Rows(context, SECTIONS[k])
    requires AddRows(e, SECTIONS[k], items, rows).Ok? && forall i | 0 <= i < |items| :: FromRow(e, context, items[i].key)
    ensures var r := AddRows(e, SECTIONS[k], items, rows).value;
            forall i | 0 <= i < |r| :: FromRow(e, context, r[i].key)
  {
    if rows != [] {
      var last := rows[|rows| - 1];
      RowKeysFromRows(e, context, k, items, rows[..|rows| - 1]);
      if Identified(last) { assert FromRow(e, context, KeyOf(e, SECTIONS[k], last)); }
    }
  }

  lemma {:induction false} KeysFromRows(e: Env, context: Context, n: nat)
    requires n <= |SECTIONS| && Catalog(e, context, n).Ok?
    ensures forall i | 0 <= i < |Catalog(e, context, n).value| :: FromRow(e, context, Catalog(e, context, n).value[i].key)
  {
    if n > 0 {
      KeysFromRows(e, context, n - 1);
      RowKeysFromRows(e, context, n - 1, Catalog(e, context, n - 1).value, Rows(context, SECTIONS[n - 1]));
    }
  }

  // The catalog holds the keys of the identified rows, and no other.
  lemma CatalogExactly(e: Env, context: Context, key: string)
    requires Catalog(e, context, |SECTIONS|).Ok?
    ensures HasKey(Catalog(e, context, |SECTIONS|).value, key) <==> FromRow(e, context, key)
  {
    KeysFromRows(e, context, |SECTIONS|);
    if FromRow(e, context, key) {
      var k: nat, row :| k < |SECTIONS| && row in Rows(context, SECTIONS[k]) && Identified(row) && key == KeyOf(e, SECTIONS[k], row);
      CatalogComplete(e, context, k, row);
    }
  }

  // No record with an empty identity has the digest of an identified record of the same context. The digest of the one
  // is taken of an identity that ends in an empty text, that of the other never is.
  ghost predicate EmptyIdsApart(e: Env, context: Context) {
    forall k: nat, row | k < |SECTIONS| && row in Rows(context, SECTIONS[k]) && IdText(row) == Some("") ::
      !FromRow(e, context, KeyOf(e, SECTIONS[k], row))
  }

  // It holds of every context when keys tell sections and identities apart.
  lemma KeysApartIsEnough(e: Env, context: Context)
    requires forall s, s', r, r' | IdText(r).Some? && IdText(r').Some? && KeyOf(e, s, r) == KeyOf(e, s', r') ::
               s == s' && IdText(r) == IdText(r')
    ensures EmptyIdsApart(e, context)
  {
    forall k: nat, row | k < |SECTIONS| && row in Rows(context, SECTIONS[k]) && IdText(row) == Some("")
      ensures !FromRow(e, context, KeyOf(e, SECTIONS[k], row))
    {
      forall l: nat, r | l < |SECTIONS| && r in Rows(context, SECTIONS[l]) && Identified(r)
        ensures KeyOf(e, SECTIONS[k], row) != KeyOf(e, SECTIONS[l], r)
      {
        assert IdText(r) != IdText(row);
      }
    }
  }

  lemma {:induction false} ProjectedIsVisible(e: Env, context: Context, k: nat, controls: seq<Control>, n: nat)
    requires EmptyIdsApart(e, context) && Catalog(e, context, |SECTIONS|).Ok?
    requires k < |SECTIONS| && n <= |Rows(context, SECTIONS[k])|
    ensures Projected(e, SECTIONS[k], Rows(context, SECTIONS[k])[..n], Catalog(e, context, |SECTIONS|).value, controls)
            == Visible(e, SECTIONS[k], Rows(context, SECTIONS[k])[..n], controls)
  {
    if n > 0 {
      var rows := Rows(context, SECTIONS[k]);
      ProjectedIsVisible(e, context, k, controls, n - 1);
      assert rows[..n][..n - 1] == rows[..n - 1];
      RowInCatalog(e, context, k, rows[n - 1]);
    }
  }

  lemma RowInCatalog(e: Env, context: Context, k: nat, row: Json)
    requires EmptyIdsApart(e, context) && Catalog(e, context, |SECTIONS|).Ok?
    requires k < |SECTIONS| && row in Rows(context, SECTIONS[k])
    ensures IdText(row).Some? ==>
              (HasKey(Catalog(e, context, |SECTIONS|).value, KeyOf(e, SECTIONS[k], row)) <==> Identified(row))
  {
    if IdText(row).Some? {
      CatalogExactly(e, context, KeyOf(e, SECTIONS[k], row));
      if Identified(row) { CatalogComplete(e, context, k, row); }
    }
  }

  function ChapterOf(context: Context): Option<int> {
    if Get(context, "chapter").JInt? then Some(Get(context, "chapter").i) else None
  }

  predicate SameExclusions(a: seq<Control>, b: seq<Control>) {
    && (forall i | 0 <= i < |a| && a[i].Control? && !a[i].keep :: Excludes(b, a[i].key))
    && (forall i | 0 <= i < |b| && b[i].Control? && !b[i].keep :: Excludes(a, b[i].key))
  }

  ghost predicate AgreeVisibly(e: Env, a: Context, b: Context, controls: seq<Control>) {
    && ChapterOf(a) == ChapterOf(b)
    && forall k | 0 <= k < |SECTIONS| ::
         Visible(e, SECTIONS[k], Rows(a, SECTIONS[k]), controls) == Visible(e, SECTIONS[k], Rows(b, SECTIONS[k]), controls)
  }

  lemma {:induction false} VisibleSame(e: Env, section: string, rows: seq<Json>, a: seq<Control>, b: seq<Control>)
    requires SameExclusions(a, b)
    ensures Visible(e, section, rows, a) == Visible(e, section, rows, b)
  {
    if rows != [] {
      VisibleSame(e, section, rows[..|rows| - 1], a, b);
      if Identified(rows[|rows| - 1]) { ExcludesSame(a, b, KeyOf(e, section, rows[|rows| - 1])); }
    }
  }

  lemma ExcludesSame(a: seq<Control>, b: seq<Control>, key: string)
    requires SameExclusions(a, b)
    ensures Excludes(a, key) <==> Excludes(b, key)
  {}

  lemma {:induction false} ConservativeSame(e: Env, a: Context, b: Context, ia: seq<Entry>, ib: seq<Entry>,
                                            ca: seq<Control>, cb: seq<Control>, n: nat)
    requires n <= |SECTIONS| && ChapterOf(a) == ChapterOf(b)
    requires forall k | 0 <= k < n :: Projected(e, SECTIONS[k], Rows(a, SECTIONS[k]), ia, ca)
                                      == Projected(e, SECTIONS[k], Rows(b, SECTIONS[k]), ib, cb)
    ensures Conservative(e, a, ia, ca, n) == Conservative(e, b, ib, cb, n)
  {
    if n > 0 { ConservativeSame(e, a, b, ia, ib, ca, cb, n - 1); }
  }

  lemma SectionVisible(e: Env, context: Context, controls: seq<Control>, k: nat)
    requires EmptyIdsApart(e, context) && k < |SECTIONS| && Catalog(e, context, |SECTIONS|).Ok?
    ensures Projected(e, SECTIONS[k], Rows(context, SECTIONS[k]), Catalog(e, context, |SECTIONS|).value, controls)
            == Visible(e, SECTIONS[k], Rows(context, SECTIONS[k]), controls)
  {
    var rows := Rows(context, SECTIONS[k]);
    ProjectedIsVisible(e, context, k, controls, |rows|);
    assert rows[..|rows|] == rows;
  }

  // Two contexts with the same chapter number and the same visible rows, under controls that exclude the same keys,
  // give the same filtered context, whatever their other keys or their excluded rows hold.
  lemma ExclusionDoesNotInterfere(e: Env, a: Context, b: Context, ca: seq<Control>, cb: seq<Control>, oa: bool, ob: bool)
    requires EmptyIdsApart(e, a) && EmptyIdsApart(e, b)
    requires Apply(e, a, ca, oa).Ok? && Apply(e, b, cb, ob).Ok?
    requires Apply(e, a, ca, oa).value.omitted && Apply(e, b, cb, ob).value.omitted
    requires SameExclusions(ca, cb) && AgreeVisibly(e, a, b, ca)
    ensures Apply(e, a, ca, oa).value.context == Apply(e, b, cb, ob).value.context
  {
    var ia, ib := Catalog(e, a, |SECTIONS|).value, Catalog(e, b, |SECTIONS|).value;
    forall k | 0 <= k < |SECTIONS|
      ensures Projected(e, SECTIONS[k], Rows(a, SECTIONS[k]), ia, ca) == Projected(e, SECTIONS[k], Rows(b, SECTIONS[k]), ib, cb)
    {
      SectionVisible(e, a, ca, k);
      SectionVisible(e, b, cb, k);
      VisibleSame(e, SECTIONS[k], Rows(b, SECTIONS[k]), ca, cb);
    }
    ConservativeSame(e, a, b, ia, ib, ca, cb, |SECTIONS|);
  }

  // With nothing excluded and dependents kept, the context is returned as it came.
  lemma NothingExcludedNothingChanged(e: Env, context: Context, controls: seq<Control>)
    requires Apply(e, context, controls, false).Ok?
    ensures var o := Apply(e, context, controls, false).value;
            && (o.omitted <==> ExcludesAny(controls)) && (!o.omitted ==> o.context == context)
  {}

  lemma {:induction false} ProjectedRows(e: Env, section: string, rows: seq<Json>, items: seq<Entry>, controls: seq<Control>)
    ensures forall row :: row in Projected(e, section, rows, items, controls) <==>
              row in rows && IdText(row).Some? && HasKey(items, KeyOf(e, section, row)) && !Excludes(controls, KeyOf(e, section, row))
  {
    if rows != [] {
      var front, last := rows[..|rows| - 1], rows[|rows| - 1];
      ProjectedRows(e, section, front, items, controls);
      assert forall row :: row in rows <==> row in front || row == last;
    }
  }

  // Section by section the filtered context holds exactly the rows with the key of an identified row that is not
  // excluded; these are the identified rows that were not excluded, unless a record with an empty identity collides.
  lemma ExcludedRowsAreGone(e: Env, context: Context, controls: seq<Control>, omitDependents: bool, k: nat, row: Json)
    requires k < |SECTIONS|
    requires Apply(e, context, controls, omitDependents).Ok? && Apply(e, context, controls, omitDependents).value.omitted
    ensures var out := Apply(e, context, controls, omitDependents).value.context;
            && out.Keys <= {"chapter"} + (set i | 0 <= i < |SECTIONS| :: SECTIONS[i])
            && SECTIONS[k] in out && out[SECTIONS[k]].JArr?
            && (row in out[SECTIONS[k]].items <==>
                  && row in Rows(context, SECTIONS[k]) && IdText(row).Some?
                  && FromRow(e, context, KeyOf(e, SECTIONS[k], row)) && !Excludes(controls, KeyOf(e, SECTIONS[k], row)))
            && (EmptyIdsApart(e, context) ==>
                  (row in out[SECTIONS[k]].items <==>
                     row in Rows(context, SECTIONS[k]) && Identified(row) && !Excludes(controls, KeyOf(e, SECTIONS[k], row))))
  {
    var items := Catalog(e, context, |SECTIONS|).value;
    ProjectedRows(e, SECTIONS[k], Rows(context, SECTIONS[k]), items, controls);
    ConservativeAt(e, context, items, controls, |SECTIONS|, k);
    ConservativeKeys(e, context, items, controls, |SECTIONS|);
    if IdText(row).Some? && row in Rows(context, SECTIONS[k]) {
      CatalogExactly(e, context, KeyOf(e, SECTIONS[k], row));
      if EmptyIdsApart(e, context) { RowInCatalog(e, context, k, row); }
    }
  }

  lemma {:induction false} ConservativeAt(e: Env, context: Context, items: seq<Entry>, controls: seq<Control>, n: nat, k: nat)
    requires k < n <= |SECTIONS|
    ensures var out := Conservative(e, context, items, controls, n);
            && SECTIONS[k] in out
            && out[SECTIONS[k]] == JArr(Projected(e, SECTIONS[k], Rows(context, SECTIONS[k]), items, controls))
  {
    if k < n - 1 {
      SectionsDiffer(k, n - 1);
      ConservativeAt(e, context, items, controls, n - 1, k);
    }
  }

  lemma {:induction false} ConservativeKeys(e: Env, context: Context, items: seq<Entry>, controls: seq<Control>, n: nat)
    requires n <= |SECTIONS|
    ensures Conservative(e, context, items, controls, n).Keys <= {"chapter"} + (set i | 0 <= i < |SECTIONS| :: SECTIONS[i])
  {
    if n > 0 { ConservativeKeys(e, context, items, controls, n - 1); }
  }

  lemma SectionsDiffer(i: nat, j: nat)
    requires i < |SECTIONS| && j < |SECTIONS| && i != j
    ensures SECTIONS[i] != SECTIONS[j]
  {
    assert |SECTIONS[0]| == 10 && |SECTIONS[1]| == 9 && |SECTIONS[2]| == 20 && |SECTIONS[3]| == 17;
  }

  /******* choices *******/

  predicate Unused(controls: seq<Control>, i: nat)
    requires i < |controls|
  {
    controls[i].Control? && !Chosen(controls[..i], controls[i].key)
  }

  predicate Matches(items: seq<Entry>, c: Control) {
    c.Control? && Position(items, c.key) < |items| && items[Position(items, c.key)].digest == c.digest
  }

  predicate SameIdentity(a: seq<Entry>, b: seq<Entry>) {
    |a| == |b| && forall i | 0 <= i < |a| :: a[i].key == b[i].key && a[i].digest == b[i].digest
  }

  lemma PositionSame(a: seq<Entry>, b: seq<Entry>, key: string)
    requires SameIdentity(a, b)
    ensures Position(a, key) == Position(b, key)
  {}

  // The choices are accepted exactly when each is well formed, its key is chosen once, and it names a cataloged record
  // by its current content; accepting them changes no identity and no content digest.
  lemma {:induction false} ChoicesAcceptedExactly(items: seq<Entry>, controls: seq<Control>)
    ensures ChooseAll(items, controls).Ok? <==>
              forall i: nat | i < |controls| :: Unused(controls, i) && Matches(items, controls[i])
    ensures ChooseAll(items, controls).Ok? ==> SameIdentity(items, ChooseAll(items, controls).value)
  {
    if controls != [] {
      var n := |controls| - 1;
      var front, last := controls[..n], controls[n];
      ChoicesAcceptedExactly(items, front);
      forall i: nat | i < n ensures (Unused(controls, i) <==> Unused(front, i)) && controls[i] == front[i] {
        assert controls[..i] == front[..i];
      }
      if ChooseAll(items, front).Ok? && last.Control? { PositionSame(items, ChooseAll(items, front).value, last.key); }
      assert controls[..n] == front;
      if ChooseAll(items, controls).Ok? {
        assert Unused(controls, n) && Matches(items, controls[n]);
      }
      if forall i: nat | i < |controls| :: Unused(controls, i) && Matches(items, controls[i]) {
        assert Unused(controls, n) && Matches(items, controls[n]);
      }
    }
  }
}

/** The loops over records and choices. */
module SourceControlRun {
  import opened Wrappers
  import opened Json
  import opened SourceControls
  import opened SourceControlLaws

  lemma {:induction false} RowsStop(e: Env, section: string, items: seq<Entry>, rows: seq<Json>, i: nat)
    requires i <= |rows| && AddRows(e, section, items, rows[..i]).Err?
    ensures AddRows(e, section, items, rows) == AddRows(e, section, items, rows[..i])
    decreases |rows| - i
  {
    if i == |rows| {
      assert rows[..i] == rows;
    } else {
      assert rows[..i + 1][..i] == rows[..i];
      RowsStop(e, section, items, rows, i + 1);
    }
  }

  lemma {:induction false} CatalogStops(e: Env, context: Context, m: nat, n: nat)
    requires m <= n <= |SECTIONS| && Catalog(e, context, m).Err?
    ensures Catalog(e, context, n) == Catalog(e, context, m)
  {
    if m < n { CatalogStops(e, context, m, n - 1); }
  }

  lemma {:induction false} ChoicesStop(items: seq<Entry>, controls: seq<Control>, i: nat)
    requires i <= |controls| && ChooseAll(items, controls[..i]).Err?
    ensures ChooseAll(items, controls) == ChooseAll(items, controls[..i])
    decreases |controls| - i
  {
    if i == |controls| {
      assert controls[..i] == controls;
    } else {
      assert controls[..i + 1][..i] == controls[..i];
      ChoicesStop(items, controls, i + 1);
    }
  }

  method CatalogSection(e: Env, section: string, rows: seq<Json>, items0: seq<Entry>, ids0: set<string>)
    returns (r: Result<seq<Entry>, Error>, ids: set<string>)
    requires forall key :: key in ids0 <==> HasKey(items0, key)
    ensures r == AddRows(e, section, items0, rows)
    ensures r.Ok? ==> forall key :: key in ids <==> HasKey(r.value, key)
  {
    var items := items0;
    ids := ids0;
    for i := 0 to |rows|
      invariant AddRows(e, section, items0, rows[..i]) == Ok(items)
      invariant forall key :: key in ids <==> HasKey(items, key)
    {
      var row := rows[i];
      assert rows[..i + 1][..i] == rows[..i];
      if Identified(row) {
        var key := KeyOf(e, section, row);
        if key in ids {
          RowsStop(e, section, items0, rows, i + 1);
          return Err(IdentityAmbiguous), ids;
        }
        if |items| >= MAX_SOURCE_ITEMS {
          RowsStop(e, section, items0, rows, i + 1);
          return Err(CatalogLimit), ids;
        }
        HasKeyAppend(items, EntryOf(e, section, row));
        items, ids := items + [EntryOf(e, section, row)], ids + {key};
      }
    }
    assert rows[..|rows|] == rows;
    r := Ok(items);
  }

  lemma HasKeyAppend(items: seq<Entry>, x: Entry)
    ensures forall key :: HasKey(items + [x], key) <==> HasKey(items, key) || x.key == key
  {
    forall key ensures HasKey(items + [x], key) <==> HasKey(items, key) || x.key == key {
      assert (items + [x])[|items|] == x;
      if HasKey(items, key) {
        var i :| 0 <= i < |items| && items[i].key == key;
        assert (items + [x])[i] == items[i];
      }
    }
  }

  method BuildCatalog(e: Env, context: Context) returns (r: Result<seq<Entry>, Error>)
    ensures r == Catalog(e, context, |SECTIONS|)
  {
    r := Ok([]);
    var ids := {};
    for n := 0 to |SECTIONS|
      invariant r.Ok? && r == Catalog(e, context, n)
      invariant forall key :: key in ids <==> HasKey(r.value, key)
    {
      r, ids := CatalogSection(e, SECTIONS[n], Rows(context, SECTIONS[n]), r.value, ids);
      if r.Err? {
        CatalogStops(e, context, n + 1, |SECTIONS|);
        return;
      }
    }
  }

  method ApplyChoices(items0: seq<Entry>, controls: seq<Control>) returns (r: Result<seq<Entry>, Error>, excluded: set<string>)
    ensures r == ChooseAll(items0, controls)
    ensures r.Ok? ==> forall key :: key in excluded <==> Excludes(controls, key)
  {
    var items, seen := items0, {};
    excluded := {};
    for i := 0 to |controls|
      invariant ChooseAll(items0, controls[..i]) == Ok(items)
      invariant forall key :: key in seen <==> Chosen(controls[..i], key)
      invariant forall key :: key in excluded <==> Excludes(controls[..i], key)
    {
      var c := controls[i];
      assert controls[..i + 1][..i] == controls[..i] && controls[..i + 1] == controls[..i] + [c];
      if c.Malformed? {
        ChoicesStop(items0, controls, i + 1);
        return Err(ControlInvalid), excluded;
      }
      if c.key in seen {
        ChoicesStop(items0, controls, i + 1);
        return Err(ControlDuplicate), excluded;
      }
      var at := Position(items, c.key);
      if at == |items| || items[at].digest != c.digest {
        ChoicesStop(items0, controls, i + 1);
        return Err(UnavailableOrChanged), excluded;
      }
      ChosenAppend(controls[..i], c);
      seen := seen + {c.key};
      items := items[at := items[at].(pinned := true, included := c.keep)];
      if !c.keep { excluded := excluded + {c.key}; }
    }
    assert controls[..|controls|] == controls;
    r := Ok(items);
  }

  lemma ChosenAppend(controls: seq<Control>, c: Control)
    requires c.Control?
    ensures forall key :: Chosen(controls + [c], key) <==> Chosen(controls, key) || c.key == key
    ensures forall key :: Excludes(controls + [c], key) <==> Excludes(controls, key) || (c.key == key && !c.keep)
  {
    var all := controls + [c];
    assert all[|controls|] == c;
    forall key ensures (Chosen(all, key) <==> Chosen(controls, key) || c.key == key)
                       && (Excludes(all, key) <==> Excludes(controls, key) || (c.key == key && !c.keep)) {
      if Chosen(controls, key) {
        var i :| 0 <= i < |controls| && controls[i].Control? && controls[i].key == key;
        assert all[i] == controls[i];
      }
      if Excludes(controls, key) {
        var i :| 0 <= i < |controls| && controls[i].Control? && controls[i].key == key && !controls[i].keep;
        assert all[i] == controls[i];
      }
    }
  }
}
