/**
 One audio production file: what a reader loads, what `save` writes for a legacy or a Studio
 caller, and the two fenced halves of `mutate`.
 */
module AudioState {
  import opened Wrappers
  import opened Json

  datatype Audio = Audio(voices: seq<Json>, dictionary: seq<Json>, jobs: seq<Json>, generations: seq<Json>)

  const EMPTY: Audio := Audio([], [], [], [])

  // `Corrupt`: not an object, or one of the four lists is not a list.
  datatype Stored = Missing | Corrupt | Held(audio: Audio)

  datatype AudioError = StateInvalid | MissingId | UnhashableId | VersionConflict | WriteRaised | CallbackRaised

  function Load(s: Stored): Result<Audio, AudioError> {
    match s
    case Missing => Ok(EMPTY)
    case Corrupt => Err(StateInvalid)
    case Held(a) => Ok(a)
  }

  predicate IsStudio(row: Json) {
    row.JObj? && Get(row.fields, "studio_origin") == JStr("studio-audio-execution/1")
  }

  function Studio(rows: seq<Json>): seq<Json> {
    if rows == [] then [] else (if IsStudio(rows[0]) then [rows[0]] else []) + Studio(rows[1..])
  }

  // `{row["id"] for row in studio_jobs}`: the first row without a usable id stops the save.
  function JobIds(rows: seq<Json>): Result<set<HashKey>, AudioError> {
    if rows == [] then Ok({})
    else if !IsStudio(rows[0]) then JobIds(rows[1..])
    else if "id" !in rows[0].fields then Err(MissingId)
    else if Hash(rows[0].fields["id"]).None? then Err(UnhashableId)
    else
      var rest := JobIds(rows[1..]);
      if rest.Err? then rest else Ok({Hash(rows[0].fields["id"]).value} + rest.value)
  }

  predicate Shadows(row: Json, identifier: string, ids: set<HashKey>) {
    row.JObj? && Hash(Get(row.fields, identifier)).Some? && Hash(Get(row.fields, identifier)).value in ids
  }

  // The rows of a legacy payload that may be written.
  function LegacyRows(rows: seq<Json>, identifier: string, ids: set<HashKey>): Result<seq<Json>, AudioError> {
    if rows == [] then Ok([])
    else if rows[0].JObj? && !IsStudio(rows[0]) && Hash(Get(rows[0].fields, identifier)).None? then Err(UnhashableId)
    else
      var rest := LegacyRows(rows[1..], identifier, ids);
      if rest.Err? || IsStudio(rows[0]) || Shadows(rows[0], identifier, ids) then rest else Ok([rows[0]] + rest.value)
  }

  function LegacyPayload(current: Audio, data: Audio): Result<Audio, AudioError> {
    var ids := JobIds(current.jobs);
    if ids.Err? then Err(ids.error)
    else
      var jobs := LegacyRows(data.jobs, "id", ids.value);
      if jobs.Err? then Err(jobs.error)
      else
        var generations := LegacyRows(data.generations, "job_id", ids.value);
        if generations.Err? then Err(generations.error)
        else Ok(Audio(data.voices, data.dictionary, jobs.value + Studio(current.jobs),
                      generations.value + Studio(current.generations)))
  }

  function Write(s: Stored, a: Audio, o: SaveOutcome): Stored {
    if o == NotSaved then s else Held(a)
  }

  function Answer(a: Audio, o: SaveOutcome): Result<Audio, AudioError> {
    if o == Saved then Ok(a) else Err(WriteRaised)
  }

  function Ordinary(rows: seq<Json>): seq<Json> {
    if rows == [] then [] else (if IsStudio(rows[0]) then [] else [rows[0]]) + Ordinary(rows[1..])
  }

  // What a legacy caller is shown of a state.
  function LegacyView(a: Audio): Audio {
    a.(jobs := Ordinary(a.jobs), generations := Ordinary(a.generations))
  }

  function LegacySave(s: Stored, data: Audio, o: SaveOutcome): (Stored, Result<Audio, AudioError>) {
    var current := Load(s);
    if current.Err? then (s, current)
    else
      var payload := LegacyPayload(current.value, data);
      if payload.Err? then (s, payload) else (Write(s, payload.value, o), Answer(LegacyView(payload.value), o))
  }

  // A Studio save replaces the whole file, and does not even read it.
  function StudioSave(s: Stored, data: Audio, o: SaveOutcome): (Stored, Result<Audio, AudioError>) {
    (Write(s, data, o), Answer(data, o))
  }

  // The second half of `mutate`: compare with the snapshot, then write.
  function Commit(s: Stored, seen: Audio, data: Audio, o: SaveOutcome): (Stored, Result<Audio, AudioError>) {
    var current := Load(s);
    if current.Err? then (s, current)
    else if current.value != seen then (s, Err(VersionConflict))
    else StudioSave(s, data, o)
  }

  /******* what a legacy save leaves alone *******/

  lemma {:induction false} StudioConcat(a: seq<Json>, b: seq<Json>)
    ensures Studio(a + b) == Studio(a) + Studio(b)
  {
    if a == [] {
      assert a + b == b;
    } else {
      StudioConcat(a[1..], b);
      assert (a + b)[1..] == a[1..] + b;
    }
  }

  lemma {:induction false} StudioOfStudio(rows: seq<Json>)
    ensures Studio(Studio(rows)) == Studio(rows)
    ensures forall r | r in Studio(rows) :: IsStudio(r)
  {
    if rows != [] {
      StudioOfStudio(rows[1..]);
      StudioConcat(if IsStudio(rows[0]) then [rows[0]] else [], Studio(rows[1..]));
    }
  }

  lemma {:induction false} LegacyRowsAreOrdinary(rows: seq<Json>, identifier: string, ids: set<HashKey>)
    requires LegacyRows(rows, identifier, ids).Ok?
    ensures var kept := LegacyRows(rows, identifier, ids).value;
            Studio(kept) == [] && forall r | r in kept :: !IsStudio(r) && !Shadows(r, identifier, ids) && r in rows
  {
    if rows != [] {
      LegacyRowsAreOrdinary(rows[1..], identifier, ids);
      var rest := LegacyRows(rows[1..], identifier, ids).value;
      if !IsStudio(rows[0]) && !Shadows(rows[0], identifier, ids) {
        StudioConcat([rows[0]], rest);
        assert Studio([rows[0]]) == [];
      }
    }
  }

  lemma {:induction false} JobIdsOfStudio(rows: seq<Json>)
    ensures JobIds(Studio(rows)) == JobIds(rows)
  {
    if rows != [] {
      JobIdsOfStudio(rows[1..]);
      if IsStudio(rows[0]) {
        assert Studio(rows)[0] == rows[0] && Studio(rows)[1..] == Studio(rows[1..]);
      } else {
        assert Studio(rows) == Studio(rows[1..]);
      }
    }
  }

  lemma {:induction false} JobIdsConcat(a: seq<Json>, b: seq<Json>)
    requires Studio(a) == []
    ensures JobIds(a + b) == JobIds(b)
  {
    if a == [] {
      assert a + b == b;
    } else {
      assert (a + b)[1..] == a[1..] + b;
      JobIdsConcat(a[1..], b);
    }
  }

  // No ordinary row carries a Studio job's identity.
  predicate Unshadowed(a: Audio) {
    JobIds(a.jobs).Ok? ==>
      && (forall r | r in a.jobs && !IsStudio(r) :: !Shadows(r, "id", JobIds(a.jobs).value))
      && (forall r | r in a.generations && !IsStudio(r) :: !Shadows(r, "job_id", JobIds(a.jobs).value))
  }

  predicate SameStudio(a: Audio, b: Audio) {
    Studio(a.jobs) == Studio(b.jobs) && Studio(a.generations) == Studio(b.generations)
  }

  // Whatever the payload: the Studio rows of both lists stay as they were, in order, and nothing shadows them.
  lemma LegacySaveKeepsStudio(current: Audio, data: Audio)
    requires LegacyPayload(current, data).Ok?
    ensures SameStudio(current, LegacyPayload(current, data).value) && Unshadowed(LegacyPayload(current, data).value)
  {
    var ids := JobIds(current.jobs).value;
    var jobs := LegacyRows(data.jobs, "id", ids).value;
    var generations := LegacyRows(data.generations, "job_id", ids).value;
    LegacyRowsAreOrdinary(data.jobs, "id", ids);
    LegacyRowsAreOrdinary(data.generations, "job_id", ids);
    StudioOfStudio(current.jobs);
    StudioOfStudio(current.generations);
    StudioConcat(jobs, Studio(current.jobs));
    StudioConcat(generations, Studio(current.generations));
    JobIdsConcat(jobs, Studio(current.jobs));
    JobIdsOfStudio(current.jobs);
  }

  predicate Usable(row: Json, identifier: string) {
    row.JObj? && !IsStudio(row) ==> Hash(Get(row.fields, identifier)).Some?
  }

  predicate Identified(row: Json) {
    IsStudio(row) ==> "id" in row.fields && Hash(row.fields["id"]).Some?
  }

  lemma {:induction false} JobIdsExactly(rows: seq<Json>)
    ensures JobIds(rows).Ok? <==> forall r | r in rows :: Identified(r)
  {
    if rows != [] {
      JobIdsExactly(rows[1..]);
      assert rows[0] in rows && forall r :: r in rows <==> r == rows[0] || r in rows[1..];
    }
  }

  lemma {:induction false} LegacyRowsExactly(rows: seq<Json>, identifier: string, ids: set<HashKey>)
    ensures LegacyRows(rows, identifier, ids).Ok? <==> forall r | r in rows :: Usable(r, identifier)
  {
    if rows != [] {
      LegacyRowsExactly(rows[1..], identifier, ids);
      assert rows[0] in rows && forall r :: r in rows <==> r == rows[0] || r in rows[1..];
    }
  }

  // A legacy save goes through exactly when every Studio job on file has a hashable id and every ordinary
  // row sent has a hashable identifier; otherwise nothing is written.
  lemma LegacySaveSucceedsExactly(s: Stored, data: Audio, o: SaveOutcome)
    ensures LegacySave(s, data, o).1.Ok? <==>
              && !s.Corrupt? && o == Saved
              && (forall r | r in Load(s).value.jobs :: Identified(r))
              && (forall r | r in data.jobs :: Usable(r, "id"))
              && (forall r | r in data.generations :: Usable(r, "job_id"))
    ensures LegacySave(s, data, o).1.Err? && o != SavedThenRaised ==> LegacySave(s, data, o).0 == s
  {
    if !s.Corrupt? {
      var current := Load(s).value;
      JobIdsExactly(current.jobs);
      var ids := if JobIds(current.jobs).Ok? then JobIds(current.jobs).value else {};
      LegacyRowsExactly(data.jobs, "id", ids);
      LegacyRowsExactly(data.generations, "job_id", ids);
    }
  }

  /******* what a legacy save stores *******/

  // A Studio row of the list has this identity.
  predicate Owned(row: Json, identifier: string, jobs: seq<Json>) {
    && row.JObj?
    && exists j | 0 <= j < |jobs| ::
         IsStudio(jobs[j]) && "id" in jobs[j].fields && Hash(jobs[j].fields["id"]) == Hash(Get(row.fields, identifier))
  }

  // The rows of a payload that are the caller's to write, in order.
  function Writable(rows: seq<Json>, identifier: string, jobs: seq<Json>): seq<Json> {
    Filter(row => !IsStudio(row) && !Owned(row, identifier, jobs), rows)
  }

  lemma {:induction false} StudioFilters(rows: seq<Json>)
    ensures Studio(rows) == Filter(IsStudio, rows) && Ordinary(rows) == Filter(row => !IsStudio(row), rows)
  {
    if rows != [] { StudioFilters(rows[1..]); }
  }

  lemma {:induction false} JobIdsOwn(jobs: seq<Json>, key: HashKey)
    requires JobIds(jobs).Ok?
    ensures key in JobIds(jobs).value <==>
              exists j | 0 <= j < |jobs| :: IsStudio(jobs[j]) && "id" in jobs[j].fields && Hash(jobs[j].fields["id"]) == Some(key)
  {
    if jobs != [] {
      JobIdsOwn(jobs[1..], key);
      assert forall j | 1 <= j < |jobs| :: jobs[j] == jobs[1..][j - 1];
      assert forall j | 0 <= j < |jobs| - 1 :: jobs[1..][j] == jobs[j + 1];
    }
  }

  lemma ShadowsOwned(row: Json, identifier: string, jobs: seq<Json>)
    requires JobIds(jobs).Ok? && Usable(row, identifier) && !IsStudio(row)
    ensures Shadows(row, identifier, JobIds(jobs).value) <==> Owned(row, identifier, jobs)
  {
    if row.JObj? { JobIdsOwn(jobs, Hash(Get(row.fields, identifier)).value); }
  }

  lemma {:induction false} LegacyRowsWritable(rows: seq<Json>, identifier: string, jobs: seq<Json>)
    requires JobIds(jobs).Ok? && LegacyRows(rows, identifier, JobIds(jobs).value).Ok?
    ensures LegacyRows(rows, identifier, JobIds(jobs).value).value == Writable(rows, identifier, jobs)
  {
    if rows != [] {
      var ids := JobIds(jobs).value;
      LegacyRowsStep(rows, identifier, ids);
      LegacyRowsWritable(rows[1..], identifier, jobs);
      WritableStep(rows, identifier, jobs);
      if !IsStudio(rows[0]) { ShadowsOwned(rows[0], identifier, jobs); }
    }
  }

  lemma LegacyRowsStep(rows: seq<Json>, identifier: string, ids: set<HashKey>)
    requires rows != [] && LegacyRows(rows, identifier, ids).Ok?
    ensures LegacyRows(rows[1..], identifier, ids).Ok? && Usable(rows[0], identifier)
    ensures LegacyRows(rows, identifier, ids).value ==
              (if IsStudio(rows[0]) || Shadows(rows[0], identifier, ids) then [] else [rows[0]]) + LegacyRows(rows[1..], identifier, ids).value
  {}

  lemma WritableStep(rows: seq<Json>, identifier: string, jobs: seq<Json>)
    requires rows != []
    ensures Writable(rows, identifier, jobs) ==
              (if !IsStudio(rows[0]) && !Owned(rows[0], identifier, jobs) then [rows[0]] else []) + Writable(rows[1..], identifier, jobs)
  {
    FilterStep(row => !IsStudio(row) && !Owned(row, identifier, jobs), rows);
  }

  lemma {:induction false} OrdinaryConcat(a: seq<Json>, b: seq<Json>)
    requires Studio(a) == [] && Ordinary(b) == []
    ensures Ordinary(a + b) == a
  {
    if a == [] {
      assert a + b == b;
    } else {
      OrdinaryConcat(a[1..], b);
      assert (a + b)[1..] == a[1..] + b;
    }
  }

  lemma {:induction false} StudioIsNotOrdinary(rows: seq<Json>)
    requires forall r | r in rows :: IsStudio(r)
    ensures Ordinary(rows) == []
  {
    if rows != [] { StudioIsNotOrdinary(rows[1..]); }
  }

  // A legacy save that goes through, on any outcome of its write: what is stored are the voices and the dictionary sent,
  // and in both lists the ordinary rows sent that no Studio job on file owns, in order, followed by the Studio rows on
  // file. The caller is answered with the same less the Studio rows; nothing is stored only if the write did not commit.
  lemma LegacySaveStores(s: Stored, data: Audio, o: SaveOutcome)
    requires LegacySave(s, data, Saved).1.Ok?
    ensures var on := Load(s).value;
            var jobs, generations := Writable(data.jobs, "id", on.jobs), Writable(data.generations, "job_id", on.jobs);
            && LegacySave(s, data, o).0 ==
                 (if o == NotSaved then s
                  else Held(Audio(data.voices, data.dictionary, jobs + Filter(IsStudio, on.jobs),
                                  generations + Filter(IsStudio, on.generations))))
            && LegacySave(s, data, o).1 ==
                 (if o == Saved then Ok(Audio(data.voices, data.dictionary, jobs, generations)) else Err(WriteRaised))
  {
    var on := Load(s).value;
    var ids := JobIds(on.jobs).value;
    LegacyRowsWritable(data.jobs, "id", on.jobs);
    LegacyRowsWritable(data.generations, "job_id", on.jobs);
    LegacyRowsAreOrdinary(data.jobs, "id", ids);
    LegacyRowsAreOrdinary(data.generations, "job_id", ids);
    ListStored(Writable(data.jobs, "id", on.jobs), on.jobs);
    ListStored(Writable(data.generations, "job_id", on.jobs), on.generations);
  }

  lemma ListStored(written: seq<Json>, rows: seq<Json>)
    requires Studio(written) == []
    ensures Studio(rows) == Filter(IsStudio, rows) && Ordinary(written + Studio(rows)) == written
  {
    StudioFilters(rows);
    StudioOfStudio(rows);
    StudioIsNotOrdinary(Studio(rows));
    OrdinaryConcat(written, Studio(rows));
  }

  function PlainRow(id: string): Json { JObj(map["id" := JStr(id)]) }

  function StudioRow(id: string): Json {
    JObj(map["id" := JStr(id), "studio_origin" := JStr("studio-audio-execution/1")])
  }

  lemma RowKinds(id: string)
    ensures !IsStudio(PlainRow(id)) && IsStudio(StudioRow(id)) && Hash(Get(PlainRow(id).fields, "id")) == Some(KStr(id))
    ensures "id" in StudioRow(id).fields && Hash(StudioRow(id).fields["id"]) == Some(KStr(id))
  {}

  lemma OneRow(row: Json)
    ensures Studio([row]) == (if IsStudio(row) then [row] else []) && Ordinary([row]) == (if IsStudio(row) then [] else [row])
    ensures IsStudio(row) && "id" in row.fields && Hash(row.fields["id"]).Some? ==>
              JobIds([row]).Ok? && JobIds([row]).value == {Hash(row.fields["id"]).value}
  {
    assert [row][1..] == [];
  }

  // A Studio job on file, and a legacy payload that sends one row under its identity, one row claiming to be a Studio row,
  // and one row of its own: only the last is written, before the Studio job.
  lemma LegacySaveExample(data: Audio)
    requires data.jobs == [PlainRow("s"), StudioRow("t"), PlainRow("j")] && data.generations == []
    ensures LegacySave(Held(Audio([], [], [StudioRow("s")], [])), data, Saved) ==
              (Held(Audio(data.voices, data.dictionary, [PlainRow("j"), StudioRow("s")], [])),
               Ok(Audio(data.voices, data.dictionary, [PlainRow("j")], [])))
  {
    var ids := {KStr("s")};
    RowKinds("s");
    RowKinds("t");
    RowKinds("j");
    OneRow(StudioRow("s"));
    assert "j"[0] != "s"[0];
    ConsRow(PlainRow("j"), [], ids);
    ConsRow(StudioRow("t"), [PlainRow("j")], ids);
    ConsRow(PlainRow("s"), [StudioRow("t"), PlainRow("j")], ids);
    assert data.jobs == [PlainRow("s")] + [StudioRow("t"), PlainRow("j")] && [StudioRow("t")] + [PlainRow("j")] == [StudioRow("t"), PlainRow("j")];
    assert [PlainRow("j")] + [] == [PlainRow("j")] && [PlainRow("j"), StudioRow("s")][1..] == [StudioRow("s")];
    assert [PlainRow("j")] + [StudioRow("s")] == [PlainRow("j"), StudioRow("s")];
    var none: seq<Json> := [];
    assert none + none == none && LegacyRows(none, "job_id", ids) == Ok(none) && Studio(none) == none && Ordinary(none) == none;
  }

  lemma ConsRow(row: Json, rest: seq<Json>, ids: set<HashKey>)
    requires row.JObj? && (!IsStudio(row) ==> Hash(Get(row.fields, "id")).Some?) && LegacyRows(rest, "id", ids).Ok?
    ensures LegacyRows([row] + rest, "id", ids) ==
              if IsStudio(row) || Hash(Get(row.fields, "id")).value in ids then LegacyRows(rest, "id", ids)
              else Ok([row] + LegacyRows(rest, "id", ids).value)
  {
    assert ([row] + rest)[1..] == rest;
  }

  datatype LegacyCall = LegacyCall(data: Audio, o: SaveOutcome)

  function LegacyRun(s: Stored, calls: seq<LegacyCall>): Stored
    decreases |calls|
  {
    if calls == [] then s
    else
      var before := LegacyRun(s, calls[..|calls| - 1]);
      LegacySave(before, calls[|calls| - 1].data, calls[|calls| - 1].o).0
  }

  predicate Wrote(s: Stored, c: LegacyCall) {
    c.o != NotSaved && Load(s).Ok? && LegacyPayload(Load(s).value, c.data).Ok?
  }

  // Any sequence of legacy saves leaves the Studio rows as they were; once one of them has written, and as
  // long as only legacy saves follow, no ordinary row carries a Studio job's identity.
  lemma {:induction false} LegacyRunsKeepStudio(s: Stored, calls: seq<LegacyCall>)
    requires Load(s).Ok?
    ensures Load(LegacyRun(s, calls)).Ok? && SameStudio(Load(s).value, Load(LegacyRun(s, calls)).value)
    ensures Unshadowed(Load(s).value) || (exists i | 0 <= i < |calls| :: Wrote(LegacyRun(s, calls[..i]), calls[i])) ==>
              Unshadowed(Load(LegacyRun(s, calls)).value)
    decreases |calls|
  {
    if calls != [] {
      var front, last := calls[..|calls| - 1], calls[|calls| - 1];
      LegacyRunsKeepStudio(s, front);
      var before := LegacyRun(s, front);
      if Wrote(before, last) {
        LegacySaveKeepsStudio(Load(before).value, last.data);
      } else {
        assert LegacyRun(s, calls) == before;
        if i :| 0 <= i < |calls| && Wrote(LegacyRun(s, calls[..i]), calls[i]) {
          assert i < |front|;
          assert calls[..i] == front[..i] && front[i] == calls[i];
        }
      }
    }
  }
}

/** The store's methods on the file, with the loops that rebuild the lists. */
module AudioStore {
  import opened Wrappers
  import opened Json
  import opened AudioState

  class AudioFile {
    var stored: Stored

    constructor (stored: Stored)
      ensures this.stored == stored
    {
      this.stored := stored;
    }

    method CollectStudio(rows: seq<Json>) returns (studio: seq<Json>)
      ensures studio == Studio(rows)
    {
      studio := [];
      for i := 0 to |rows|
        invariant studio + Studio(rows[i..]) == Studio(rows)
      {
        assert rows[i..][1..] == rows[i + 1..];
        if IsStudio(rows[i]) { studio := studio + [rows[i]]; }
      }
    }

    method WithoutStudio(rows: seq<Json>) returns (ordinary: seq<Json>)
      ensures ordinary == Ordinary(rows)
    {
      ordinary := [];
      for i := 0 to |rows|
        invariant ordinary + Ordinary(rows[i..]) == Ordinary(rows)
      {
        assert rows[i..][1..] == rows[i + 1..];
        OrdinaryNext(ordinary, rows[i..]);
        if !IsStudio(rows[i]) { ordinary := ordinary + [rows[i]]; }
      }
    }

    static lemma OrdinaryNext(before: seq<Json>, rows: seq<Json>)
      requires rows != []
      ensures before + Ordinary(rows) == (if IsStudio(rows[0]) then before else before + [rows[0]]) + Ordinary(rows[1..])
    {}

    method CollectJobIds(rows: seq<Json>) returns (r: Result<set<HashKey>, AudioError>)
      ensures r == JobIds(rows)
    {
      var ids := {};
      assert rows[0..] == rows;
      for i := 0 to |rows|
        invariant JobIds(rows).Ok? <==> JobIds(rows[i..]).Ok?
        invariant JobIds(rows).Ok? ==> JobIds(rows).value == ids + JobIds(rows[i..]).value
        invariant JobIds(rows).Err? ==> JobIds(rows) == JobIds(rows[i..])
      {
        assert rows[i..][1..] == rows[i + 1..];
        if IsStudio(rows[i]) {
          if "id" !in rows[i].fields { return Err(MissingId); }
          var key := Hash(rows[i].fields["id"]);
          if key.None? { return Err(UnhashableId); }
          ids := ids + {key.value};
        }
      }
      return Ok(ids);
    }

    method FilterRows(rows: seq<Json>, identifier: string, ids: set<HashKey>) returns (r: Result<seq<Json>, AudioError>)
      ensures r == LegacyRows(rows, identifier, ids)
    {
      var kept := [];
      assert rows[0..] == rows;
      for i := 0 to |rows|
        invariant LegacyRows(rows, identifier, ids).Ok? <==> LegacyRows(rows[i..], identifier, ids).Ok?
        invariant LegacyRows(rows, identifier, ids).Ok? ==>
                    LegacyRows(rows, identifier, ids).value == kept + LegacyRows(rows[i..], identifier, ids).value
        invariant LegacyRows(rows, identifier, ids).Err? ==>
                    LegacyRows(rows, identifier, ids) == LegacyRows(rows[i..], identifier, ids)
      {
        assert rows[i..][1..] == rows[i + 1..];
        if !rows[i].JObj? {
          kept := kept + [rows[i]];
        } else if !IsStudio(rows[i]) {
          var key := Hash(Get(rows[i].fields, identifier));
          if key.None? { return Err(UnhashableId); }
          if key.value !in ids { kept := kept + [rows[i]]; }
        }
      }
      assert rows[|rows|..] == [] && kept + [] == kept;
      return Ok(kept);
    }

    method Write(a: Audio, o: SaveOutcome) returns (r: Result<Audio, AudioError>)
      modifies this
      ensures (stored, r) == StudioSave(old(stored), a, o)
    {
      if o != NotSaved { stored := Held(a); }
      r := if o == Saved then Ok(a) else Err(WriteRaised);
    }

    method Save(data: Audio, includeStudio: bool, o: SaveOutcome) returns (r: Result<Audio, AudioError>)
      modifies this
      ensures (stored, r) == if includeStudio then StudioSave(old(stored), data, o) else LegacySave(old(stored), data, o)
      ensures r.Ok? ==> r.value.voices == data.voices && r.value.dictionary == data.dictionary
      ensures r.Ok? && includeStudio ==> r.value == data && stored == Held(data)
    {
      var payload := data;
      if !includeStudio {
        var current := Load(stored);
        if current.Err? { return current; }
        var ids := CollectJobIds(current.value.jobs);
        if ids.Err? { return Err(ids.error); }
        var jobs := FilterRows(payload.jobs, "id", ids.value);
        if jobs.Err? { return Err(jobs.error); }
        var studioJobs := CollectStudio(current.value.jobs);
        payload := payload.(jobs := jobs.value + studioJobs);
        var generations := FilterRows(payload.generations, "job_id", ids.value);
        if generations.Err? { return Err(generations.error); }
        var studioGenerations := CollectStudio(current.value.generations);
        payload := payload.(generations := generations.value + studioGenerations);
      }
      r := Write(payload, o);
      if !includeStudio && r.Ok? {
        var jobs := WithoutStudio(payload.jobs);
        var generations := WithoutStudio(payload.generations);
        r := Ok(payload.(jobs := jobs, generations := generations));
      }
    }

    // The second fenced half of `mutate`; `seen` is what the first half loaded, `data` what the callback left.
    method CommitIfUnchanged(seen: Audio, data: Audio, o: SaveOutcome) returns (r: Result<Audio, AudioError>)
      modifies this
      ensures (stored, r) == Commit(old(stored), seen, data, o)
    {
      var current := Load(stored);
      if current.Err? { return current; }
      if current.value != seen { return Err(VersionConflict); }
      r := Save(data, true, o);
    }
  }
}
