/** What the controls answer: which records are cataloged and how, which error comes first, and what a choice sets. */
module SourceControlOutcomes {
  import opened Wrappers
  import opened Json
  import opened SourceControls
  import opened SourceControlLaws
  import Run = SourceControlRun
  import T = Text

  /******* the identified records *******/

  datatype Source = Source(section: nat, row: Json)

  predicate WellIdentified(s: Source) { s.section < |SECTIONS| && Identified(s.row) }

  function KeyAt(e: Env, s: Source): string
    requires WellIdentified(s)
  {
    KeyOf(e, SECTIONS[s.section], s.row)
  }

  // The identified rows of one section, in order.
  function Filed(k: nat, rows: seq<Json>): (r: seq<Source>)
    requires k < |SECTIONS|
    ensures forall i | 0 <= i < |r| :: WellIdentified(r[i])
  {
    if rows == [] then []
    else Filed(k, rows[..|rows| - 1]) + if Identified(rows[|rows| - 1]) then [Source(k, rows[|rows| - 1])] else []
  }

  // Those of the first n sections.
  function Sources(context: Context, n: nat): (r: seq<Source>)
    requires n <= |SECTIONS|
    ensures forall i | 0 <= i < |r| :: WellIdentified(r[i])
  {
    if n == 0 then [] else Sources(context, n - 1) + Filed(n - 1, Rows(context, SECTIONS[n - 1]))
  }

  function KeysOf(e: Env, sources: seq<Source>): (r: seq<string>)
    requires forall i | 0 <= i < |sources| :: WellIdentified(sources[i])
    ensures |r| == |sources|
  {
    seq(|sources|, i requires 0 <= i < |sources| => KeyAt(e, sources[i]))
  }

  /******* the first fault *******/

  function Fault(keys: seq<string>): Option<Error> {
    if keys == [] then None
    else
      var front := keys[..|keys| - 1];
      if Fault(front).Some? then Fault(front)
      else if keys[|keys| - 1] in front then Some(IdentityAmbiguous)
      else if |front| >= 256 then Some(CatalogLimit) else None
  }

  predicate RepeatsAt(keys: seq<string>, j: nat)
    requires j < |keys|
  {
    keys[j] in keys[..j]
  }

  // A key that repeats among the first 257 is found before the limit is.
  lemma {:induction false} FaultExactly(keys: seq<string>)
    ensures Fault(keys) == Some(IdentityAmbiguous) <==> exists j: nat :: j < |keys| && j <= 256 && RepeatsAt(keys, j)
    ensures Fault(keys).None? <==> |keys| <= 256 && forall j: nat | j < |keys| :: !RepeatsAt(keys, j)
    ensures Fault(keys).Some? ==> Fault(keys).value == IdentityAmbiguous || Fault(keys).value == CatalogLimit
  {
    if keys != [] {
      var n := |keys| - 1;
      var front := keys[..n];
      FaultExactly(front);
      forall j: nat | j < n ensures RepeatsAt(keys, j) <==> RepeatsAt(front, j) { assert keys[..j] == front[..j]; }
      assert RepeatsAt(keys, n) <==> keys[n] in front;
    }
  }

  /******* the catalog *******/

  predicate Lists(e: Env, sources: seq<Source>, items: seq<Entry>)
    requires forall i | 0 <= i < |sources| :: WellIdentified(sources[i])
  {
    && |items| == |sources|
    && forall i | 0 <= i < |sources| :: WellIdentified(sources[i]) && items[i] == EntryOf(e, SECTIONS[sources[i].section], sources[i].row)
  }

  // What processing the sources has given: their entries in order, or their first fault.
  ghost predicate Catalogs(e: Env, sources: seq<Source>, r: Result<seq<Entry>, Error>)
    requires forall i | 0 <= i < |sources| :: WellIdentified(sources[i])
  {
    var fault := Fault(KeysOf(e, sources));
    if fault.Some? then r == Err(fault.value) else r.Ok? && Lists(e, sources, r.value)
  }

  lemma OneMore(e: Env, sources: seq<Source>, k: nat, row: Json, r: Result<seq<Entry>, Error>)
    requires forall i | 0 <= i < |sources| :: WellIdentified(sources[i])
    requires k < |SECTIONS| && Identified(row) && Catalogs(e, sources, r)
    ensures Catalogs(e, sources + [Source(k, row)], if r.Err? then r else AddRow(e, SECTIONS[k], r.value, row))
  {
    var all, keys := sources + [Source(k, row)], KeysOf(e, sources);
    assert KeysOf(e, all) == keys + [KeyOf(e, SECTIONS[k], row)];
    assert KeysOf(e, all)[..|all| - 1] == keys;
    if r.Ok? { KnownKeys(e, sources, r.value, KeyOf(e, SECTIONS[k], row)); }
  }

  lemma KnownKeys(e: Env, sources: seq<Source>, items: seq<Entry>, key: string)
    requires forall i | 0 <= i < |sources| :: WellIdentified(sources[i])
    requires Lists(e, sources, items)
    ensures HasKey(items, key) <==> key in KeysOf(e, sources)
  {
    var keys := KeysOf(e, sources);
    forall i | 0 <= i < |sources| ensures items[i].key == keys[i] {}
    if key in keys {
      var i :| 0 <= i < |keys| && keys[i] == key;
      assert items[i].key == key;
    }
  }

  lemma {:induction false} SectionCatalogs(e: Env, sources: seq<Source>, k: nat, items: seq<Entry>, rows: seq<Json>)
    requires forall i | 0 <= i < |sources| :: WellIdentified(sources[i])
    requires k < |SECTIONS| && Catalogs(e, sources, Ok(items))
    ensures Catalogs(e, sources + Filed(k, rows), AddRows(e, SECTIONS[k], items, rows))
  {
    if rows == [] {
      assert sources + [] == sources;
    } else {
      var front, row := rows[..|rows| - 1], rows[|rows| - 1];
      SectionCatalogs(e, sources, k, items, front);
      if Identified(row) {
        OneMore(e, sources + Filed(k, front), k, row, AddRows(e, SECTIONS[k], items, front));
        assert sources + Filed(k, rows) == sources + Filed(k, front) + [Source(k, row)];
      } else {
        assert Filed(k, rows) == Filed(k, front);
      }
    }
  }

  lemma {:induction false} FaultStays(a: seq<string>, b: seq<string>)
    requires Fault(a).Some?
    ensures Fault(a + b) == Fault(a)
  {
    if b == [] {
      assert a + b == a;
    } else {
      FaultStays(a, b[..|b| - 1]);
      assert (a + b)[..|a + b| - 1] == a + b[..|b| - 1];
    }
  }

  // The catalog lists the identified records of the four sections in order, one entry for each, exactly when no key is met
  // twice and there are at most 256; otherwise the error is the first fault.
  lemma {:induction false} CatalogIs(e: Env, context: Context, n: nat)
    requires n <= |SECTIONS|
    ensures Catalogs(e, Sources(context, n), Catalog(e, context, n))
  {
    if n > 0 {
      var before, filed := Sources(context, n - 1), Filed(n - 1, Rows(context, SECTIONS[n - 1]));
      var r := Catalog(e, context, n - 1);
      CatalogIs(e, context, n - 1);
      if r.Ok? {
        SectionCatalogs(e, before, n - 1, r.value, Rows(context, SECTIONS[n - 1]));
      } else {
        FaultFound(e, before, filed, r);
      }
    }
  }

  lemma FaultFound(e: Env, before: seq<Source>, filed: seq<Source>, r: Result<seq<Entry>, Error>)
    requires forall i | 0 <= i < |before| :: WellIdentified(before[i])
    requires forall i | 0 <= i < |filed| :: WellIdentified(filed[i])
    requires r.Err? && Catalogs(e, before, r)
    ensures Catalogs(e, before + filed, r)
  {
    FaultStays(KeysOf(e, before), KeysOf(e, filed));
    KeysConcat(e, before, filed);
  }

  lemma KeysConcat(e: Env, a: seq<Source>, b: seq<Source>)
    requires forall i | 0 <= i < |a| :: WellIdentified(a[i])
    requires forall i | 0 <= i < |b| :: WellIdentified(b[i])
    ensures forall i | 0 <= i < |a + b| :: WellIdentified((a + b)[i])
    ensures KeysOf(e, a + b) == KeysOf(e, a) + KeysOf(e, b)
  {}

  /******* an entry *******/

  // A record is identified by a text, an integer or a truth value, the latter two as Python spells them.
  lemma IdentifiedReads(e: Env, fields: map<string, Json>)
    requires "id" in fields
    ensures IdText(JObj(fields)) == match fields["id"]
                                    case JStr(s) => Some(s)
                                    case JInt(i) => Some(T.IntText(i))
                                    case JBool(true) => Some("True")
                                    case JBool(false) => Some("False")
                                    case _ => None
    ensures Identified(JObj(fields)) <==> (fields["id"].JStr? && fields["id"].s != "") || fields["id"].JInt? || fields["id"].JBool?
  {}

  // A fresh entry is included and not pinned, and bears the digest of its record and the kind of its section.
  lemma EntryReads(e: Env, k: nat, row: Json)
    requires k < |SECTIONS| && Identified(row)
    ensures var entry := EntryOf(e, SECTIONS[k], row);
            && entry.kind == ["CHARACTER", "LOCATION", "FORESHADOWING", "SECRET"][k]
            && entry.digest == e.fingerprint(row) && entry.included && !entry.pinned
            && (entry.version.Some? ==> "version" in row.fields && row.fields["version"] == JInt(entry.version.value) && entry.version.value >= 1)
            && ("version" in row.fields && row.fields["version"].JInt? && row.fields["version"].i >= 1 ==> entry.version.Some?)
  {
    SectionsDiffer(0, 1);
    SectionsDiffer(0, 2);
    SectionsDiffer(0, 3);
    SectionsDiffer(1, 2);
    SectionsDiffer(1, 3);
    SectionsDiffer(2, 3);
  }

  // The caption is the first that counts as true of name and title, or else the identity, cut at 200 characters.
  lemma CaptionReads(e: Env, k: nat, row: Json, shown: Json)
    requires k < |SECTIONS| && Identified(row)
    requires if "name" in row.fields && Truthy(row.fields["name"]) then shown == row.fields["name"]
             else if "title" in row.fields && Truthy(row.fields["title"]) then shown == row.fields["title"]
             else shown == row.fields["id"]
    ensures var text, caption := e.show(shown), EntryOf(e, SECTIONS[k], row).caption;
            && caption <= text && |caption| <= 200 && (|text| <= 200 ==> caption == text) && (|text| >= 200 ==> |caption| == 200)
  {}

  /******* the choices *******/

  predicate Apart(items: seq<Entry>) {
    forall i, j | 0 <= i < j < |items| :: items[i].key != items[j].key
  }

  // In a catalog, whose keys are apart, exactly the chosen entries are pinned, and exactly the excluded ones are no longer
  // included; nothing else of any entry changes.
  lemma {:induction false} ChosenReads(items: seq<Entry>, controls: seq<Control>, i: nat)
    requires Apart(items) && i < |items| && items[i].included && !items[i].pinned
    requires ChooseAll(items, controls).Ok?
    ensures var chosen := ChooseAll(items, controls).value;
            && |chosen| == |items|
            && chosen[i] == items[i].(pinned := Chosen(controls, items[i].key), included := !Excludes(controls, items[i].key))
  {
    ChoicesAcceptedExactly(items, controls);
    if controls != [] {
      var n := |controls| - 1;
      var front, last, key := controls[..n], controls[n], items[i].key;
      ChoicesAcceptedExactly(items, front);
      ChosenReads(items, front, i);
      assert controls == front + [last];
      Run.ChosenAppend(front, last);
      PositionSame(items, ChooseAll(items, front).value, last.key);
      if last.key == key { PositionFound(items, i); }
      UnusedNotExcluded(front, last.key);
    }
  }

  lemma PositionFound(items: seq<Entry>, i: nat)
    requires Apart(items) && i < |items|
    ensures Position(items, items[i].key) == i
  {
    var p := Position(items, items[i].key);
    assert p <= i;
  }

  lemma UnusedNotExcluded(controls: seq<Control>, key: string)
    requires !Chosen(controls, key)
    ensures !Excludes(controls, key)
  {}

  // The first choice that is wrong decides the error: malformed, of a key chosen before, or of a record that is not
  // there with this content.
  lemma ChoiceRefused(items: seq<Entry>, controls: seq<Control>, i: nat)
    requires i < |controls| && ChooseAll(items, controls[..i]).Ok? && ChooseAll(items, controls[..i + 1]).Err?
    ensures ChooseAll(items, controls)
            == Err(if controls[i].Malformed? then ControlInvalid
                   else if Chosen(controls[..i], controls[i].key) then ControlDuplicate else UnavailableOrChanged)
  {
    Run.ChoicesStop(items, controls, i + 1);
    assert controls[..i + 1][..i] == controls[..i];
  }

  /******* the whole call *******/

  ghost predicate SomeUnidentified(context: Context) {
    exists k :: 0 <= k < |SECTIONS| && SECTIONS[k] in context
                && (!context[SECTIONS[k]].JArr? || exists row :: row in context[SECTIONS[k]].items && !Identified(row))
  }

  // More than 256 choices are refused outright; then the catalog's fault is reported, and then that of the choices.
  // Otherwise the answer holds the chosen catalog, and says whether anything was left out and whether any source of the
  // four sections is unidentified.
  lemma AppliedExactly(e: Env, context: Context, controls: seq<Control>, omitDependents: bool)
    ensures var r := Apply(e, context, controls, omitDependents);
            var fault := Fault(KeysOf(e, Sources(context, |SECTIONS|)));
            && (|controls| > 256 ==> r == Err(ControlLimit))
            && (|controls| <= 256 && fault.Some? ==> r == Err(fault.value))
            && (|controls| <= 256 && fault.None? ==>
                  && Catalog(e, context, |SECTIONS|).Ok?
                  && var chosen := ChooseAll(Catalog(e, context, |SECTIONS|).value, controls);
                  if chosen.Err? then r == Err(chosen.error)
                  else
                    && r.Ok? && r.value.items == chosen.value
                    && (r.value.omitted <==> omitDependents || exists c :: c in controls && c.Control? && !c.keep)
                    && (r.value.unidentified <==> SomeUnidentified(context)))
  {
    CatalogIs(e, context, |SECTIONS|);
    if ExcludesAny(controls) {
      var i :| 0 <= i < |controls| && controls[i].Control? && !controls[i].keep;
      assert controls[i] in controls;
    }
    UnidentifiedReads(context);
  }

  lemma UnidentifiedReads(context: Context)
    ensures (exists k :: 0 <= k < |SECTIONS| && SectionUnidentified(context, SECTIONS[k])) <==> SomeUnidentified(context)
  {
    if SomeUnidentified(context) {
      var k :| 0 <= k < |SECTIONS| && SECTIONS[k] in context
               && (!context[SECTIONS[k]].JArr? || exists row :: row in context[SECTIONS[k]].items && !Identified(row));
      assert SectionUnidentified(context, SECTIONS[k]);
    }
    if exists k :: 0 <= k < |SECTIONS| && SectionUnidentified(context, SECTIONS[k]) {
      var k :| 0 <= k < |SECTIONS| && SectionUnidentified(context, SECTIONS[k]);
      assert SECTIONS[k] in context;
    }
  }
}
