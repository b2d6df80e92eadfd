/**
 One ordinary worker run: the routes in order, the event stream of the one that is dispatched, the
 bounds on its output, and the checks before publication. What other threads and the outside do is
 written into each step.
 */
module GenerationRun {
  import opened Wrappers

  // `terminal`: another thread finished a cancellation; `failed`: a bound was broken and the output discarded.
  datatype Draft = Draft(output: string, terminal: bool, cancelled: bool, failed: bool)

  // The state of the two optional bounds when they are looked at.
  datatype Bounds = BoundsHold | BoundsChanged | BoundsInvalid | DeadlinePassed

  datatype Event = Delta(text: string) | Completed(whole: Option<string>) | Failed | Cancelled | Ignored

  // Someone sets the cancel signal, and possibly also ends the job, before a step.
  datatype Outside = Quiet | Signalled | Ended

  // Before the event, during the live authorization check, and just as the delta is stored.
  datatype Step = Step(event: Event, before: Outside, bounds: Bounds, authorized: bool, during: Outside, atEmit: bool, saved: bool)

  // `refused`: the live authorization was refused; `broken`: a bound was broken.
  datatype Preflight = Ready | NotReady(refused: bool, broken: bool)

  datatype Route = Route(cloud: bool, before: Outside, preflight: Preflight, steps: seq<Step>, breaks: bool)

  // Between the routes and the publication: `snapshot` and `review` say that neither of these two raises.
  datatype Ending = Ending(
    before: Outside, snapshot: bool, bounds: Bounds, review: bool, beforeLock: Outside, lastCheck: Outside, authorized: bool,
    during: Outside)

  datatype Progress =
    | Going(draft: Draft, done: bool)
    | Stopped(draft: Draft)
    | Raised(draft: Draft, refused: bool)

  // `tried`: routes entered; `streams`: the routes whose event stream was opened; `handed`: publication begins.
  datatype Outcome = Outcome(draft: Draft, tried: nat, streams: seq<nat>, handed: bool)

  // The length of a character in UTF-8.
  function Utf8(c: char): nat {
    if c as int < 0x80 then 1 else if c as int < 0x800 then 2 else if c as int < 0x10000 then 3 else 4
  }

  function Bytes(s: string): nat {
    if s == "" then 0 else Bytes(s[..|s| - 1]) + Utf8(s[|s| - 1])
  }

  function Happen(d: Draft, o: Outside): Draft {
    if o.Quiet? then d else d.(cancelled := true, terminal := d.terminal || o.Ended?)
  }

  function Cancel(d: Draft): Draft { d.(terminal := true) }

  function Discard(d: Draft): Draft { d.(output := "", cancelled := true, failed := true) }

  predicate TooLong(d: Draft, limit: nat, delta: string, whole: Option<string>) {
    Bytes(d.output) + Bytes(delta) > limit || (whole.Some? && Bytes(whole.value) > limit)
  }

  // `check_generation_bounds`: the draft after it, and whether it raised.
  function CheckBounds(d: Draft, limit: Option<nat>, b: Bounds, delta: string, whole: Option<string>): (Draft, bool) {
    if b.BoundsChanged? then (Discard(d), true)
    else if limit.None? then (d, false)
    else if b.BoundsInvalid? then (d, true)
    else if b.DeadlinePassed? || TooLong(d, limit.value, delta, whole) then (Discard(d), true)
    else (d, false)
  }

  function Store(d: Draft, text: string, atEmit: bool): Draft {
    var d1 := d.(cancelled := d.cancelled || atEmit);
    if d1.cancelled || d1.terminal then d1 else d1.(output := d1.output + text)
  }

  function OnDelta(d: Draft, limit: Option<nat>, s: Step, text: string, done: bool): Progress {
    var checked := CheckBounds(d, limit, s.bounds, text, None);
    var d1 := Happen(checked.0, s.during);
    if checked.1 then Raised(checked.0, false)
    else if !s.authorized then Raised(d1, true)
    else if d1.terminal then Stopped(d1)
    else if d1.cancelled then Stopped(Cancel(d1))
    else if !s.saved then Raised(Store(d1, text, s.atEmit), false)
    else Going(Store(d1, text, s.atEmit), done)
  }

  function OnCompleted(d: Draft, limit: Option<nat>, s: Step, text: Option<string>): Progress {
    var checked := CheckBounds(d, limit, s.bounds, "", text);
    var d1 := Happen(checked.0, s.during);
    if checked.1 then Raised(checked.0, false)
    else if !s.authorized then Raised(d1, true)
    else if d1.terminal then Stopped(d1)
    else Going(d1, true)
  }

  // One event of the stream, under the job's condition.
  function OnEvent(d0: Draft, limit: Option<nat>, s: Step, done: bool): Progress {
    var d := Happen(d0, s.before);
    if d.terminal then Stopped(d)
    else if s.event.Cancelled? || d.cancelled then Stopped(Cancel(d))
    else match s.event
      case Failed => Raised(d, !s.authorized)
      case Delta(text) => if text == "" then Going(d, done) else OnDelta(d, limit, s, text, done)
      case Completed(whole) => OnCompleted(d, limit, s, whole)
      case Ignored => Going(d, done)
      case Cancelled => Stopped(Cancel(d))
  }

  function Stream(d: Draft, limit: Option<nat>, steps: seq<Step>): Progress {
    if steps == [] then Going(d, false)
    else
      var p := Stream(d, limit, steps[..|steps| - 1]);
      if p.Going? then OnEvent(p.draft, limit, steps[|steps| - 1], p.done) else p
  }

  // A stream that ends without a completion, or breaks, raises.
  function StreamEnd(p: Progress, breaks: bool): Progress {
    if p.Going? && (breaks || !p.done) then Raised(p.draft, false) else p
  }

  // Whether the failure of a route leaves the next one to be tried.
  predicate TriesNext(d: Draft, refused: bool, dispatched: bool, explicit: bool, cloud: bool) {
    !(refused || dispatched || d.output != "" || explicit || cloud)
  }

  function PreflightFailure(d: Draft, p: Preflight): Draft
    requires p.NotReady?
  {
    if p.broken then Discard(d) else d
  }

  // The loop over the routes from position i on, and what stopped it.
  function Routes(d0: Draft, limit: Option<nat>, explicit: bool, routes: seq<Route>, i: nat): (Progress, nat, seq<nat>)
    requires i <= |routes|
    decreases |routes| - i
  {
    if i == |routes| then (Raised(d0, false), i, [])
    else
      var r := routes[i];
      var d := Happen(d0, r.before);
      if d.cancelled then (Stopped(Cancel(d)), i + 1, [])
      else if r.preflight.NotReady? then
        var d1 := PreflightFailure(d, r.preflight);
        if TriesNext(d1, r.preflight.refused, false, explicit, r.cloud) then Routes(d1, limit, explicit, routes, i + 1)
        else (Raised(d1, r.preflight.refused), i + 1, [])
      else (StreamEnd(Stream(d, limit, r.steps), r.breaks), i + 1, [i])
  }

  // After the routes: cancellation, the bounds once more, and the last look under the review lock. What goes on from here
  // is handed to the publication, which looks for a cancellation itself.
  function Publishes(d0: Draft, limit: Option<nat>, e: Ending): Progress {
    var d := Happen(d0, e.before);
    if d.cancelled then Stopped(Cancel(d))
    else if !e.snapshot then Raised(d, false)
    else
      var checked := CheckBounds(d, limit, e.bounds, "", None);
      var d1 := Happen(checked.0, e.beforeLock);
      if checked.1 then Raised(checked.0, false)
      else if !e.review then Raised(d1, false)
      else if d1.cancelled then Stopped(Cancel(d1))
      else AtLock(Happen(d1, e.lastCheck), e.authorized, e.during)
  }

  function AtLock(d: Draft, authorized: bool, during: Outside): Progress {
    if d.terminal then Stopped(d)
    else if d.cancelled then Stopped(Cancel(d))
    else
      var d1 := Happen(d, during);
      if !authorized then Raised(d1, true) else if d1.terminal then Stopped(d1) else Going(d1, true)
  }

  // The handler around the whole run: a late failure undoes nothing, a refused authorization discards the draft.
  function OnFailure(d: Draft, refused: bool): Draft {
    if d.terminal then d
    else if d.failed then Cancel(d.(output := ""))
    else if d.cancelled then Cancel(d)
    else Cancel(d.(output := if refused then "" else d.output))
  }

  const FRESH: Draft := Draft("", false, false, false)

  function Run(limit: Option<nat>, explicit: bool, routes: seq<Route>, start: Outside, e: Ending): Outcome {
    var d := Happen(FRESH, start);
    if d.cancelled then Outcome(Cancel(d), 0, [], false)
    else
      var (p, tried, streams) := Routes(d, limit, explicit, routes, 0);
      if p.Raised? then Outcome(OnFailure(p.draft, p.refused), tried, streams, false)
      else if p.Stopped? then Outcome(p.draft, tried, streams, false)
      else
        var last := Publishes(p.draft, limit, e);
        if last.Raised? then Outcome(OnFailure(last.draft, last.refused), tried, streams, false)
        else Outcome(last.draft, tried, streams, last.Going?)
  }

  /******* the stream *******/

  function DeltaOf(s: Step): string {
    if s.event.Delta? then s.event.text else ""
  }

  function Deltas(steps: seq<Step>): string {
    if steps == [] then ""
    else Deltas(steps[..|steps| - 1]) + DeltaOf(steps[|steps| - 1])
  }

  predicate Within(limit: Option<nat>, s: string) {
    limit.Some? ==> Bytes(s) <= limit.value
  }

  lemma {:induction false} BytesConcat(a: string, b: string)
    ensures Bytes(a + b) == Bytes(a) + Bytes(b)
  {
    if b == "" {
      assert a + b == a;
    } else {
      BytesConcat(a, b[..|b| - 1]);
      assert (a + b)[..|a + b| - 1] == a + b[..|b| - 1];
    }
  }

  lemma DeltaKeepsBound(d: Draft, limit: Option<nat>, s: Step, text: string, done: bool)
    requires !d.terminal && !d.failed && !d.cancelled && Within(limit, d.output)
    ensures var p := OnDelta(d, limit, s, text, done);
            p.Going? ==> !p.draft.terminal && !p.draft.failed
                         && (p.draft.cancelled || (p.draft.output == d.output + text && Within(limit, p.draft.output)))
  {
    BytesConcat(d.output, text);
  }

  lemma EventKeepsBound(d: Draft, limit: Option<nat>, s: Step, done: bool)
    requires !d.terminal && !d.failed && (d.cancelled || Within(limit, d.output))
    ensures var p := OnEvent(d, limit, s, done);
            p.Going? ==> !p.draft.terminal && !p.draft.failed
                         && (p.draft.cancelled
                             || (!d.cancelled && p.draft.output == d.output + DeltaOf(s) && Within(limit, p.draft.output)))
  {
    assert d.output + "" == d.output;
    if s.event.Delta? && !d.cancelled && s.before.Quiet? { DeltaKeepsBound(d, limit, s, s.event.text, done); }
  }

  // A stream that is still going holds exactly the deltas so far, within the limit, unless it has been cancelled.
  lemma {:induction false} StreamHoldsDeltas(d: Draft, limit: Option<nat>, steps: seq<Step>)
    requires d.output == "" && !d.terminal && !d.failed
    ensures var p := Stream(d, limit, steps);
            p.Going? ==> !p.draft.terminal && !p.draft.failed
                         && (p.draft.cancelled || (p.draft.output == Deltas(steps) && Within(limit, p.draft.output)))
  {
    if steps != [] {
      var front := steps[..|steps| - 1];
      StreamHoldsDeltas(d, limit, front);
      var p := Stream(d, limit, front);
      if p.Going? { EventKeepsBound(p.draft, limit, steps[|steps| - 1], p.done); }
    }
  }

  predicate Prefix(a: string, b: string) { |a| <= |b| && a == b[..|a|] }

  lemma PrefixOfGrown(a: string, b: string, c: string)
    requires Prefix(a, b) && Prefix(b, c)
    ensures Prefix(a, c)
  {
    assert c[..|b|][..|a|] == c[..|a|];
  }

  lemma {:induction false} DeltasGrow(steps: seq<Step>, n: nat)
    requires n <= |steps|
    ensures Prefix(Deltas(steps[..n]), Deltas(steps))
  {
    if n == |steps| {
      assert steps[..n] == steps;
    } else {
      var front := steps[..|steps| - 1];
      DeltasGrow(front, n);
      assert front[..n] == steps[..n];
      PrefixOfGrown(Deltas(steps[..n]), Deltas(front), Deltas(steps));
    }
  }

  // An event clears the draft, leaves it, or appends its own delta; it appends only to a draft nobody cancelled.
  lemma EventOutput(d: Draft, limit: Option<nat>, s: Step, done: bool)
    ensures var p := OnEvent(d, limit, s, done);
            && (p.draft.output == "" || p.draft.output == d.output || (!d.cancelled && p.draft.output == d.output + DeltaOf(s)))
            && (p.Going? && !p.draft.cancelled ==> !d.cancelled && p.draft.output == d.output + DeltaOf(s))
  {
    assert d.output + "" == d.output;
  }

  // However it ends, the draft of a stream is empty or a prefix of that stream's deltas.
  lemma {:induction false} StreamHoldsPrefix(d: Draft, limit: Option<nat>, steps: seq<Step>)
    requires d.output == ""
    ensures Prefix(Stream(d, limit, steps).draft.output, Deltas(steps))
    ensures Stream(d, limit, steps).Going? && !Stream(d, limit, steps).draft.cancelled ==>
              Stream(d, limit, steps).draft.output == Deltas(steps)
  {
    if steps != [] {
      var front := steps[..|steps| - 1];
      StreamHoldsPrefix(d, limit, front);
      DeltasGrow(steps, |front|);
      var p := Stream(d, limit, front);
      if p.Going? { EventOutput(p.draft, limit, steps[|steps| - 1], p.done); }
      PrefixOfGrown(p.draft.output, Deltas(front), Deltas(steps));
    }
  }

  /******* the routes *******/

  // Route k fails on its own machine, before anything was sent, and nobody asked for it by name.
  predicate SkippedQuietly(routes: seq<Route>, explicit: bool, k: nat)
    requires k < |routes|
  {
    !explicit && !routes[k].cloud && routes[k].preflight.NotReady? && !routes[k].preflight.refused
  }

  // The loop opens at most one stream, of the last route it tries; every route before that one was skipped
  // without a dispatch, an output, a cloud provider, an explicit choice or a refusal.
  lemma {:induction false} RoutesOpenOne(d: Draft, limit: Option<nat>, explicit: bool, routes: seq<Route>, i: nat)
    requires i <= |routes| && d.output == ""
    ensures var (p, tried, streams) := Routes(d, limit, explicit, routes, i);
            && i <= tried <= |routes| && (streams == [] || (tried > i && streams == [tried - 1]))
            && (forall k | i <= k < tried - 1 :: SkippedQuietly(routes, explicit, k))
            && (streams == [] ==> p.draft.output == "" && !p.Going?)
            && (streams != [] ==> Prefix(p.draft.output, Deltas(routes[tried - 1].steps)))
    decreases |routes| - i
  {
    if i < |routes| {
      var r := routes[i];
      var d1 := Happen(d, r.before);
      if !d1.cancelled {
        if r.preflight.NotReady? {
          RoutesOpenOne(PreflightFailure(d1, r.preflight), limit, explicit, routes, i + 1);
        } else {
          StreamHoldsPrefix(d1, limit, r.steps);
        }
      }
    }
  }

  lemma {:induction false} RoutesHoldDeltas(d: Draft, limit: Option<nat>, explicit: bool, routes: seq<Route>, i: nat)
    requires i <= |routes| && d.output == "" && (d.terminal || d.failed ==> d.cancelled)
    ensures var (p, tried, streams) := Routes(d, limit, explicit, routes, i);
            p.Going? ==>
              && 0 < tried <= |routes| && streams == [tried - 1] && p.done && !p.draft.failed && !p.draft.terminal
              && (p.draft.cancelled || (p.draft.output == Deltas(routes[tried - 1].steps) && Within(limit, p.draft.output)))
    decreases |routes| - i
  {
    if i < |routes| {
      var r := routes[i];
      var d1 := Happen(d, r.before);
      if !d1.cancelled {
        if r.preflight.NotReady? {
          RoutesHoldDeltas(PreflightFailure(d1, r.preflight), limit, explicit, routes, i + 1);
        } else {
          StreamHoldsDeltas(d1, limit, r.steps);
        }
      }
    }
  }

  // Publication appends nothing: the draft stays or is discarded, and it is handed over only as it came.
  lemma PublishedUnchanged(d: Draft, limit: Option<nat>, e: Ending)
    ensures var p := Publishes(d, limit, e);
            && (p.draft.output == d.output || p.draft.output == "")
            && (p.Stopped? ==> p.draft.terminal)
            && (p.Going? ==> p.draft.output == d.output && !d.cancelled && !p.draft.terminal && (!d.failed ==> !p.draft.failed))
  {}

  lemma FailureUnchanged(d: Draft, refused: bool)
    ensures OnFailure(d, refused).terminal
    ensures OnFailure(d, refused).output == d.output || OnFailure(d, refused).output == ""
  {}

  // What a run leaves is what its routes left, or nothing.
  lemma RunOutcome(limit: Option<nat>, explicit: bool, routes: seq<Route>, start: Outside, e: Ending)
    ensures var o := Run(limit, explicit, routes, start, e);
            var d := Happen(FRESH, start);
            var (p, tried, streams) := Routes(d, limit, explicit, routes, 0);
            && (d.cancelled ==> o == Outcome(Cancel(d), 0, [], false))
            && (!d.cancelled ==> o.tried == tried && o.streams == streams && (o.draft.output == p.draft.output || o.draft.output == ""))
            && (o.handed ==> !d.cancelled && p.Going? && !p.draft.cancelled && o.draft.output == p.draft.output
                             && (!p.draft.failed ==> !o.draft.failed))
  {
    var d := Happen(FRESH, start);
    var p := Routes(d, limit, explicit, routes, 0).0;
    if p.Raised? { FailureUnchanged(p.draft, p.refused); }
    if p.Going? {
      var last := Publishes(p.draft, limit, e);
      PublishedUnchanged(p.draft, limit, e);
      if last.Raised? { FailureUnchanged(last.draft, last.refused); }
    }
  }

  // Whatever the routes, the events, the other threads and the outside do: at most one stream is opened, and it is
  // the last route tried; an earlier one was passed over only quietly; and partial drafts are never combined.
  lemma AtMostOneStream(limit: Option<nat>, explicit: bool, routes: seq<Route>, start: Outside, e: Ending)
    ensures var o := Run(limit, explicit, routes, start, e);
            && o.tried <= |routes|
            && (o.streams == [] || (o.tried > 0 && o.streams == [o.tried - 1]))
            && (forall k | 0 <= k < o.tried - 1 :: SkippedQuietly(routes, explicit, k))
            && (o.streams == [] ==> o.draft.output == "")
            && (o.streams != [] ==> Prefix(o.draft.output, Deltas(routes[o.tried - 1].steps)))
  {
    RunOutcome(limit, explicit, routes, start, e);
    RoutesOpenOne(Happen(FRESH, start), limit, explicit, routes, 0);
    if Run(limit, explicit, routes, start, e).draft.output == "" { EmptyIsPrefix(Run(limit, explicit, routes, start, e), routes); }
  }

  lemma EmptyIsPrefix(o: Outcome, routes: seq<Route>)
    requires o.draft.output == ""
    ensures 0 < o.tried <= |routes| ==> Prefix(o.draft.output, Deltas(routes[o.tried - 1].steps))
  {}

  // What goes to publication opened one stream and is exactly that stream's deltas, in order, within the byte bound
  // when there is one, with no bound broken.
  lemma CompletedIsOneStream(limit: Option<nat>, explicit: bool, routes: seq<Route>, start: Outside, e: Ending)
    ensures var o := Run(limit, explicit, routes, start, e);
            o.handed ==>
              && 0 < o.tried <= |routes| && o.streams == [o.tried - 1]
              && o.draft.output == Deltas(routes[o.tried - 1].steps) && Within(limit, o.draft.output)
              && !o.draft.failed
  {
    RunOutcome(limit, explicit, routes, start, e);
    RoutesHoldDeltas(Happen(FRESH, start), limit, explicit, routes, 0);
  }

  lemma {:induction false} StoppedIsTerminal(d: Draft, limit: Option<nat>, steps: seq<Step>)
    ensures Stream(d, limit, steps).Stopped? ==> Stream(d, limit, steps).draft.terminal
  {
    if steps != [] { StoppedIsTerminal(d, limit, steps[..|steps| - 1]); }
  }

  lemma {:induction false} RoutesStopTerminal(d: Draft, limit: Option<nat>, explicit: bool, routes: seq<Route>, i: nat)
    requires i <= |routes|
    ensures Routes(d, limit, explicit, routes, i).0.Stopped? ==> Routes(d, limit, explicit, routes, i).0.draft.terminal
    decreases |routes| - i
  {
    if i < |routes| {
      var r := routes[i];
      var d1 := Happen(d, r.before);
      if !d1.cancelled {
        if r.preflight.NotReady? {
          RoutesStopTerminal(PreflightFailure(d1, r.preflight), limit, explicit, routes, i + 1);
        } else {
          StoppedIsTerminal(d1, limit, r.steps);
        }
      }
    }
  }

  // No run is left hanging: whatever is raised, refused or cancelled anywhere, the job is in a terminal state when the
  // worker leaves it, unless the draft goes to publication; and never both.
  lemma EveryRunEnds(limit: Option<nat>, explicit: bool, routes: seq<Route>, start: Outside, e: Ending)
    ensures var o := Run(limit, explicit, routes, start, e);
            o.handed <==> !o.draft.terminal
  {
    var d := Happen(FRESH, start);
    var p := Routes(d, limit, explicit, routes, 0).0;
    RoutesStopTerminal(d, limit, explicit, routes, 0);
    if p.Raised? { FailureUnchanged(p.draft, p.refused); }
    if p.Going? {
      var last := Publishes(p.draft, limit, e);
      PublishedUnchanged(p.draft, limit, e);
      if last.Raised? { FailureUnchanged(last.draft, last.refused); }
    }
  }

  /******* bounds *******/

  // The bytes of a character, by section 3 of RFC 3629.
  function Encoded(c: char): seq<int> {
    var n := c as int;
    var second := n / 64;
    var third := second / 64;
    if n <= 0x7F then [n]
    else if n <= 0x7FF then [0xC0 + second, 0x80 + n % 64]
    else if n <= 0xFFFF then [0xE0 + third, 0x80 + second % 64, 0x80 + n % 64]
    else [0xF0 + third / 64, 0x80 + third % 64, 0x80 + second % 64, 0x80 + n % 64]
  }

  // The character number that bytes stand for.
  function Decoded(bytes: seq<int>): int {
    if |bytes| == 1 then bytes[0]
    else if |bytes| == 2 then (bytes[0] - 0xC0) * 64 + (bytes[1] - 0x80)
    else if |bytes| == 3 then ((bytes[0] - 0xE0) * 64 + (bytes[1] - 0x80)) * 64 + (bytes[2] - 0x80)
    else if |bytes| == 4 then (((bytes[0] - 0xF0) * 64 + (bytes[1] - 0x80)) * 64 + (bytes[2] - 0x80)) * 64 + (bytes[3] - 0x80)
    else 0
  }

  lemma EncodedDecodes(c: char)
    ensures Decoded(Encoded(c)) == c as int && |Encoded(c)| == Utf8(c)
  {
    var n := c as int;
    assert n == n / 64 * 64 + n % 64;
    assert n / 64 == n / 64 / 64 * 64 + n / 64 % 64;
    assert n / 64 / 64 == n / 64 / 64 / 64 * 64 + n / 64 / 64 % 64;
  }

  function EncodedAll(s: string): seq<int> {
    if s == "" then [] else EncodedAll(s[..|s| - 1]) + Encoded(s[|s| - 1])
  }

  // The size of a text is the number of bytes of its UTF-8 encoding.
  lemma {:induction false} BytesAreUtf8(s: string)
    ensures Bytes(s) == |EncodedAll(s)|
  {
    if s != "" {
      BytesAreUtf8(s[..|s| - 1]);
      EncodedDecodes(s[|s| - 1]);
    }
  }

  // The check raises exactly when a bound is not kept. It then discards the draft for good, unless all that is wrong is
  // that the bound itself cannot be read.
  lemma BoundsCheckedExactly(d: Draft, limit: Option<nat>, b: Bounds, delta: string, whole: Option<string>)
    ensures var (d', raised) := CheckBounds(d, limit, b, delta, whole);
            && (raised <==> !BoundOk(limit, b, d.output, delta, whole))
            && (!raised || (limit.Some? && b.BoundsInvalid?) ==> d' == d)
            && (raised && !(limit.Some? && b.BoundsInvalid?) ==> d' == Draft("", d.terminal, true, true))
  {}

  /******* which runs are handed over *******/

  predicate BoundOk(limit: Option<nat>, b: Bounds, output: string, delta: string, whole: Option<string>) {
    && !b.BoundsChanged?
    && (limit.Some? ==> b.BoundsHold? && Bytes(output) + Bytes(delta) <= limit.value && (whole.Some? ==> Bytes(whole.value) <= limit.value))
  }

  // An event that lets the stream go on: a provider's delta or completion under live authority and within the bounds,
  // the delta stored and nobody asking to cancel meanwhile; or an event that carries nothing.
  predicate EventFine(limit: Option<nat>, output: string, s: Step) {
    && s.before.Quiet?
    && match s.event
       case Failed => false
       case Cancelled => false
       case Ignored => true
       case Delta(text) =>
         text != "" ==> s.authorized && BoundOk(limit, s.bounds, output, text, None) && s.during.Quiet? && !s.atEmit && s.saved
       case Completed(whole) => s.authorized && BoundOk(limit, s.bounds, output, "", whole) && s.during.Quiet?
  }

  // Every event, after the deltas before it.
  predicate StepsFine(limit: Option<nat>, steps: seq<Step>) {
    steps != [] ==>
      var n := |steps| - 1;
      StepsFine(limit, steps[..n]) && EventFine(limit, Deltas(steps[..n]), steps[n])
  }

  predicate HasCompletion(steps: seq<Step>) {
    steps != [] && (HasCompletion(steps[..|steps| - 1]) || steps[|steps| - 1].event.Completed?)
  }

  // Between the last event and the publication.
  predicate EndFine(limit: Option<nat>, output: string, e: Ending) {
    && e.before.Quiet? && e.snapshot && BoundOk(limit, e.bounds, output, "", None) && e.beforeLock.Quiet? && e.review
    && e.lastCheck.Quiet? && e.authorized && !e.during.Ended?
  }

  // The routes before this one are passed over, nobody interfering, and this one is ready.
  predicate Reaches(routes: seq<Route>, explicit: bool, i: nat, k: nat) {
    && i <= k < |routes| && routes[k].before.Quiet? && routes[k].preflight.Ready?
    && forall j | i <= j < k :: SkippedQuietly(routes, explicit, j) && !routes[j].preflight.broken && routes[j].before.Quiet?
  }

  predicate StreamFine(limit: Option<nat>, r: Route) {
    StepsFine(limit, r.steps) && HasCompletion(r.steps) && !r.breaks
  }

  lemma EventFineExactly(d: Draft, limit: Option<nat>, s: Step, done: bool)
    requires !d.cancelled && !d.terminal && !d.failed
    ensures var p := OnEvent(d, limit, s, done);
            && (p.Going? && !p.draft.cancelled <==> EventFine(limit, d.output, s))
            && (EventFine(limit, d.output, s) ==> p == Going(d.(output := d.output + DeltaOf(s)), done || s.event.Completed?))
  {
    assert d.output + "" == d.output;
  }

  // A stream that is still going with nobody cancelling is one whose events were all fine, and conversely.
  lemma {:induction false} StreamFineExactly(d: Draft, limit: Option<nat>, steps: seq<Step>)
    requires !d.cancelled && !d.terminal && !d.failed && d.output == ""
    ensures var p := Stream(d, limit, steps);
            && (p.Going? && !p.draft.cancelled <==> StepsFine(limit, steps))
            && (StepsFine(limit, steps) ==> p == Going(d.(output := Deltas(steps)), HasCompletion(steps)))
  {
    if steps != [] {
      var front, last := steps[..|steps| - 1], steps[|steps| - 1];
      StreamFineExactly(d, limit, front);
      var p := Stream(d, limit, front);
      if p.Going? && !p.draft.cancelled {
        EventFineExactly(p.draft, limit, last, p.done);
      } else if p.Going? {
        CancelledGoesNoFurther(p.draft, limit, last, p.done);
      }
    }
  }

  lemma CancelledGoesNoFurther(d: Draft, limit: Option<nat>, s: Step, done: bool)
    requires d.cancelled
    ensures !OnEvent(d, limit, s, done).Going?
  {}

  lemma {:induction false} RoutesReachExactly(d: Draft, limit: Option<nat>, explicit: bool, routes: seq<Route>, i: nat)
    requires i <= |routes| && !d.cancelled && !d.terminal && !d.failed && d.output == ""
    ensures var p := Routes(d, limit, explicit, routes, i).0;
            && ((p.Going? && !p.draft.cancelled) <==> exists k: nat :: Reaches(routes, explicit, i, k) && StreamFine(limit, routes[k]))
    ensures forall k: nat | Reaches(routes, explicit, i, k) ::
              Routes(d, limit, explicit, routes, i) == (StreamEnd(Stream(d, limit, routes[k].steps), routes[k].breaks), k + 1, [k])
    decreases |routes| - i
  {
    if i < |routes| {
      var r := routes[i];
      if r.before.Quiet? {
        if r.preflight.Ready? {
          StreamFineExactly(d, limit, r.steps);
          assert Reaches(routes, explicit, i, i);
        } else if SkippedQuietly(routes, explicit, i) && !r.preflight.broken {
          RoutesReachExactly(d, limit, explicit, routes, i + 1);
          forall k: nat ensures Reaches(routes, explicit, i, k) <==> Reaches(routes, explicit, i + 1, k) {}
        } else if TriesNext(PreflightFailure(d, r.preflight), r.preflight.refused, false, explicit, r.cloud) {
          CancelledRoutesStop(PreflightFailure(d, r.preflight), limit, explicit, routes, i + 1);
        }
      }
    }
  }

  lemma CancelledRoutesStop(d: Draft, limit: Option<nat>, explicit: bool, routes: seq<Route>, i: nat)
    requires i <= |routes| && d.cancelled
    ensures !Routes(d, limit, explicit, routes, i).0.Going?
  {}

  lemma EndFineExactly(d: Draft, limit: Option<nat>, e: Ending)
    requires !d.terminal && !d.failed
    ensures Publishes(d, limit, e).Going? <==> !d.cancelled && EndFine(limit, d.output, e)
  {}

  // A run is handed to publication exactly when nobody interfered, the routes before one were passed over, that one's
  // events were all authorized and within the bounds and completed, and the last look found it authorized: and its draft
  // is that stream's deltas. For every run, whatever the others do.
  lemma HandedExactly(limit: Option<nat>, explicit: bool, routes: seq<Route>, start: Outside, e: Ending)
    ensures var o := Run(limit, explicit, routes, start, e);
            && (o.handed <==>
                  start.Quiet? && exists k: nat :: Reaches(routes, explicit, 0, k) && StreamFine(limit, routes[k])
                                              && EndFine(limit, Deltas(routes[k].steps), e))
            && (forall k: nat | o.handed && Reaches(routes, explicit, 0, k) :: o.draft.output == Deltas(routes[k].steps))
  {
    RunOutcome(limit, explicit, routes, start, e);
    if start.Quiet? {
      RoutesReachExactly(FRESH, limit, explicit, routes, 0);
      var p := Routes(FRESH, limit, explicit, routes, 0).0;
      RoutesHoldDeltas(FRESH, limit, explicit, routes, 0);
      if p.Going? { EndFineExactly(p.draft, limit, e); }
      forall k: nat | Reaches(routes, explicit, 0, k) && StreamFine(limit, routes[k]) ensures p == Going(FRESH.(output := Deltas(routes[k].steps)), true) {
        StreamFineExactly(FRESH, limit, routes[k].steps);
      }
    }
  }

  // A refusal under the lock, with all else in order, discards the draft.
  lemma RefusedAtLockDiscards(limit: Option<nat>, explicit: bool, routes: seq<Route>, e: Ending, k: nat)
    requires Reaches(routes, explicit, 0, k) && StreamFine(limit, routes[k])
    requires EndFine(limit, Deltas(routes[k].steps), e.(authorized := true)) && e.during.Quiet? && !e.authorized
    ensures var o := Run(limit, explicit, routes, Quiet, e);
            !o.handed && o.draft.terminal && o.draft.output == "" && o.streams == [k]
  {
    RoutesReachExactly(FRESH, limit, explicit, routes, 0);
    StreamFineExactly(FRESH, limit, routes[k].steps);
  }

  // An event on which live authority is looked at and found gone, all else being in order.
  predicate Refuses(limit: Option<nat>, output: string, s: Step) {
    && !s.authorized && s.before.Quiet?
    && (s.event.Failed? || ((s.event.Completed? || (s.event.Delta? && s.event.text != "")) && EventFine(limit, output, s.(authorized := true))))
  }

  // The first event that is refused discards what came before it; the stream ends there.
  lemma RefusedEventDiscards(limit: Option<nat>, explicit: bool, routes: seq<Route>, e: Ending, k: nat, n: nat)
    requires Reaches(routes, explicit, 0, k) && n < |routes[k].steps| && StepsFine(limit, routes[k].steps[..n])
    requires Refuses(limit, Deltas(routes[k].steps[..n]), routes[k].steps[n])
    ensures var o := Run(limit, explicit, routes, Quiet, e);
            !o.handed && o.draft.terminal && o.draft.output == "" && o.streams == [k]
  {
    var steps := routes[k].steps;
    RoutesReachExactly(FRESH, limit, explicit, routes, 0);
    StreamFineExactly(FRESH, limit, steps[..n]);
    assert steps[..n + 1][..n] == steps[..n];
    RefusedEvent(FRESH.(output := Deltas(steps[..n])), limit, steps[n], HasCompletion(steps[..n]));
    StreamEndsAt(FRESH, limit, steps, n + 1);
  }

  lemma RefusedEvent(d: Draft, limit: Option<nat>, s: Step, done: bool)
    requires !d.cancelled && !d.terminal && !d.failed && Refuses(limit, d.output, s)
    ensures OnEvent(d, limit, s, done) == Raised(d, true)
  {}

  // A stream that breaks, ends without a completion, or is failed by its provider under live authority leaves what came
  // before to be looked at.
  lemma BrokenStreamKeepsDraft(limit: Option<nat>, explicit: bool, routes: seq<Route>, e: Ending, k: nat, n: nat)
    requires Reaches(routes, explicit, 0, k) && n <= |routes[k].steps| && StepsFine(limit, routes[k].steps[..n])
    requires if n < |routes[k].steps| then
               routes[k].steps[n].event.Failed? && routes[k].steps[n].authorized && routes[k].steps[n].before.Quiet?
             else routes[k].breaks || !HasCompletion(routes[k].steps)
    ensures var o := Run(limit, explicit, routes, Quiet, e);
            !o.handed && o.draft.terminal && o.draft.output == Deltas(routes[k].steps[..n]) && o.streams == [k]
  {
    RoutesReachExactly(FRESH, limit, explicit, routes, 0);
    StreamBreaks(limit, routes[k].steps, routes[k].breaks, n);
  }

  lemma StreamBreaks(limit: Option<nat>, steps: seq<Step>, breaks: bool, n: nat)
    requires n <= |steps| && StepsFine(limit, steps[..n])
    requires if n < |steps| then steps[n].event.Failed? && steps[n].authorized && steps[n].before.Quiet?
             else breaks || !HasCompletion(steps)
    ensures StreamEnd(Stream(FRESH, limit, steps), breaks) == Raised(FRESH.(output := Deltas(steps[..n])), false)
  {
    StreamFineExactly(FRESH, limit, steps[..n]);
    if n < |steps| {
      StreamUpTo(limit, steps, n);
      FailedRaises(FRESH.(output := Deltas(steps[..n])), limit, steps[n], HasCompletion(steps[..n]));
      StreamEndsAt(FRESH, limit, steps, n + 1);
    } else {
      assert steps[..n] == steps;
    }
  }

  lemma StreamUpTo(limit: Option<nat>, steps: seq<Step>, n: nat)
    requires n < |steps|
    ensures var p := Stream(FRESH, limit, steps[..n]);
            Stream(FRESH, limit, steps[..n + 1]) == if p.Going? then OnEvent(p.draft, limit, steps[n], p.done) else p
  {
    assert steps[..n + 1][..n] == steps[..n];
  }

  lemma FailedRaises(d: Draft, limit: Option<nat>, s: Step, done: bool)
    requires !d.cancelled && !d.terminal && s.event.Failed? && s.authorized && s.before.Quiet?
    ensures OnEvent(d, limit, s, done) == Raised(d, false)
  {}

  // So does a delta that was appended and could not be saved, that delta included.
  lemma UnsavedDeltaKeepsDraft(limit: Option<nat>, explicit: bool, routes: seq<Route>, e: Ending, k: nat, n: nat)
    requires Reaches(routes, explicit, 0, k) && n < |routes[k].steps| && StepsFine(limit, routes[k].steps[..n])
    requires var s := routes[k].steps[n];
             s.event.Delta? && !s.saved && s.event.text != "" && EventFine(limit, Deltas(routes[k].steps[..n]), s.(saved := true))
    ensures var o := Run(limit, explicit, routes, Quiet, e);
            !o.handed && o.draft.terminal && o.draft.output == Deltas(routes[k].steps[..n + 1]) && o.streams == [k]
  {
    var steps := routes[k].steps;
    RoutesReachExactly(FRESH, limit, explicit, routes, 0);
    StreamFineExactly(FRESH, limit, steps[..n]);
    assert steps[..n + 1][..n] == steps[..n];
    UnsavedDelta(FRESH.(output := Deltas(steps[..n])), limit, steps[n], HasCompletion(steps[..n]));
    StreamEndsAt(FRESH, limit, steps, n + 1);
  }

  lemma UnsavedDelta(d: Draft, limit: Option<nat>, s: Step, done: bool)
    requires !d.cancelled && !d.terminal && !d.failed && s.event.Delta? && s.event.text != "" && !s.saved
    requires EventFine(limit, d.output, s.(saved := true))
    ensures OnEvent(d, limit, s, done) == Raised(d.(output := d.output + s.event.text), false)
  {}

  // An event that is looked at against the bounds and does not keep them: the draft goes, unless the bound cannot be read.
  lemma BoundBrokenInStream(limit: Option<nat>, explicit: bool, routes: seq<Route>, e: Ending, k: nat, n: nat)
    requires Reaches(routes, explicit, 0, k) && n < |routes[k].steps| && StepsFine(limit, routes[k].steps[..n])
    requires Breaks(limit, Deltas(routes[k].steps[..n]), routes[k].steps[n])
    ensures var o := Run(limit, explicit, routes, Quiet, e);
            && !o.handed && o.draft.terminal && o.streams == [k]
            && o.draft.output == (if limit.Some? && routes[k].steps[n].bounds.BoundsInvalid? then Deltas(routes[k].steps[..n]) else "")
            && (o.draft.failed <==> !(limit.Some? && routes[k].steps[n].bounds.BoundsInvalid?))
  {
    var steps := routes[k].steps;
    RoutesReachExactly(FRESH, limit, explicit, routes, 0);
    StreamFineExactly(FRESH, limit, steps[..n]);
    assert steps[..n + 1][..n] == steps[..n];
    BreakingEvent(FRESH.(output := Deltas(steps[..n])), limit, steps[n], HasCompletion(steps[..n]));
    StreamEndsAt(FRESH, limit, steps, n + 1);
  }

  predicate Breaks(limit: Option<nat>, output: string, s: Step) {
    && s.before.Quiet?
    && (s.event.Completed? ==> !BoundOk(limit, s.bounds, output, "", s.event.whole))
    && (s.event.Delta? ==> s.event.text != "" && !BoundOk(limit, s.bounds, output, s.event.text, None))
    && (s.event.Completed? || s.event.Delta?)
  }

  lemma BreakingEvent(d: Draft, limit: Option<nat>, s: Step, done: bool)
    requires !d.cancelled && !d.terminal && !d.failed && Breaks(limit, d.output, s)
    ensures OnEvent(d, limit, s, done) ==
              Raised(if limit.Some? && s.bounds.BoundsInvalid? then d else Draft("", false, true, true), false)
  {}

  // A snapshot or a review that raises after a good stream leaves its draft to be looked at; a bound that no longer holds
  // takes it away.
  lemma LateFailure(limit: Option<nat>, explicit: bool, routes: seq<Route>, e: Ending, k: nat)
    requires Reaches(routes, explicit, 0, k) && StreamFine(limit, routes[k]) && e.before.Quiet? && e.beforeLock.Quiet?
    requires !e.snapshot || !e.review || !BoundOk(limit, e.bounds, Deltas(routes[k].steps), "", None)
    ensures var o := Run(limit, explicit, routes, Quiet, e);
            && !o.handed && o.draft.terminal && o.streams == [k]
            && o.draft.output ==
                 if e.snapshot && !BoundOk(limit, e.bounds, Deltas(routes[k].steps), "", None) && !(limit.Some? && e.bounds.BoundsInvalid?)
                 then "" else Deltas(routes[k].steps)
  {
    RoutesReachExactly(FRESH, limit, explicit, routes, 0);
    StreamFineExactly(FRESH, limit, routes[k].steps);
  }

  // Route k, after others were passed over, is not ready and must not be passed over: it is the last one tried, nothing
  // was sent, and the job has failed.
  lemma {:induction false} UnreadyRouteStops(limit: Option<nat>, explicit: bool, routes: seq<Route>, e: Ending, k: nat)
    requires k < |routes| && routes[k].before.Quiet? && routes[k].preflight.NotReady? && !SkippedQuietly(routes, explicit, k)
    requires forall j | 0 <= j < k :: SkippedQuietly(routes, explicit, j) && !routes[j].preflight.broken && routes[j].before.Quiet?
    ensures var o := Run(limit, explicit, routes, Quiet, e);
            !o.handed && o.draft.terminal && o.draft.output == "" && o.tried == k + 1 && o.streams == []
  {
    RoutesSkip(limit, explicit, routes, k);
  }

  // A cancellation before route k leaves it untried as a stream; when every route was passed over, all were tried.
  lemma NoRouteLeft(limit: Option<nat>, explicit: bool, routes: seq<Route>, e: Ending, k: nat)
    requires k <= |routes| && (k < |routes| ==> !routes[k].before.Quiet?)
    requires forall j | 0 <= j < k :: SkippedQuietly(routes, explicit, j) && !routes[j].preflight.broken && routes[j].before.Quiet?
    ensures var o := Run(limit, explicit, routes, Quiet, e);
            && !o.handed && o.draft.terminal && o.draft.output == "" && o.streams == []
            && o.tried == (if k < |routes| then k + 1 else k) && (o.draft.cancelled <==> k < |routes|)
  {
    RoutesSkip(limit, explicit, routes, k);
  }

  lemma {:induction false} RoutesSkip(limit: Option<nat>, explicit: bool, routes: seq<Route>, k: nat)
    requires k <= |routes|
    requires forall j | 0 <= j < k :: SkippedQuietly(routes, explicit, j) && !routes[j].preflight.broken && routes[j].before.Quiet?
    ensures Routes(FRESH, limit, explicit, routes, 0) == Routes(FRESH, limit, explicit, routes, k)
  {
    if k > 0 { RoutesSkip(limit, explicit, routes, k - 1); }
  }

  // What an event ended, later ones do not change.
  lemma {:induction false} StreamEndsAt(d: Draft, limit: Option<nat>, steps: seq<Step>, i: nat)
    requires i <= |steps| && !Stream(d, limit, steps[..i]).Going?
    ensures Stream(d, limit, steps) == Stream(d, limit, steps[..i])
    decreases |steps| - i
  {
    if i == |steps| {
      assert steps[..i] == steps;
    } else {
      assert steps[..i + 1][..i] == steps[..i];
      StreamEndsAt(d, limit, steps, i + 1);
    }
  }

  // A broken bound discards the draft for good.
  lemma {:induction false} BrokenBoundDiscards(d: Draft, limit: Option<nat>, steps: seq<Step>)
    requires !d.failed
    ensures Stream(d, limit, steps).draft.failed ==>
              Stream(d, limit, steps).Raised? && Stream(d, limit, steps).draft.output == "" && Stream(d, limit, steps).draft.cancelled
  {
    if steps != [] { BrokenBoundDiscards(d, limit, steps[..|steps| - 1]); }
  }
}

/** The worker's loops, updating the job step by step. */
module GenerationWorker {
  import opened Wrappers
  import opened GenerationRun

  datatype Verdict = Goes | Stops | Raises(refused: bool)

  function ProgressOf(v: Verdict, d: Draft, done: bool): Progress {
    match v case Goes => Going(d, done) case Stops => Stopped(d) case Raises(refused) => Raised(d, refused)
  }

  lemma StreamNext(d: Draft, limit: Option<nat>, steps: seq<Step>, i: nat)
    requires i < |steps|
    ensures Stream(d, limit, steps[..i + 1]) ==
              var p := Stream(d, limit, steps[..i]);
              if p.Going? then OnEvent(p.draft, limit, steps[i], p.done) else p
  {
    assert steps[..i + 1][..i] == steps[..i];
  }

  class Job {
    var output: string
    var terminal: bool
    var cancelled: bool
    var failed: bool
    var tried: nat
    var streams: seq<nat>
    const limit: Option<nat>

    constructor (limit: Option<nat>)
      ensures View() == FRESH && tried == 0 && streams == [] && this.limit == limit
    {
      output, terminal, cancelled, failed, tried, streams := "", false, false, false, 0, [];
      this.limit := limit;
    }

    function View(): Draft
      reads this
    {
      Draft(output, terminal, cancelled, failed)
    }

    method Outsider(o: Outside)
      modifies this`cancelled, this`terminal
      ensures View() == Happen(old(View()), o)
    {
      if !o.Quiet? {
        cancelled := true;
        if o.Ended? { terminal := true; }
      }
    }

    method CheckGenerationBounds(b: Bounds, delta: string, whole: Option<string>) returns (raised: bool)
      modifies this`output, this`cancelled, this`failed
      ensures (View(), raised) == CheckBounds(old(View()), limit, b, delta, whole)
    {
      if b.BoundsChanged? {
        failed, output, cancelled := true, "", true;
        return true;
      }
      if limit.None? { return false; }
      if b.BoundsInvalid? { return true; }
      if b.DeadlinePassed? || TooLong(View(), limit.value, delta, whole) {
        failed, output, cancelled := true, "", true;
        return true;
      }
      return false;
    }

    method EmitDelta(text: string, atEmit: bool)
      modifies this`output, this`cancelled
      ensures View() == Store(old(View()), text, atEmit)
    {
      if atEmit { cancelled := true; }
      if !cancelled && !terminal { output := output + text; }
    }

    method HandleEvent(s: Step, done0: bool) returns (v: Verdict, done: bool)
      modifies this`output, this`cancelled, this`failed, this`terminal
      ensures ProgressOf(v, View(), done) == OnEvent(old(View()), limit, s, done0)
    {
      done := done0;
      Outsider(s.before);
      if terminal { return Stops, done; }
      if s.event.Cancelled? || cancelled {
        terminal := true;
        return Stops, done;
      }
      match s.event {
        case Failed => return Raises(!s.authorized), done;
        case Ignored => return Goes, done;
        case Cancelled => return Stops, done;
        case Delta(text) =>
          if text == "" { return Goes, done; }
          var raised := CheckGenerationBounds(s.bounds, text, None);
          if raised { return Raises(false), done; }
          Outsider(s.during);
          if !s.authorized { return Raises(true), done; }
          if terminal { return Stops, done; }
          if cancelled {
            terminal := true;
            return Stops, done;
          }
          EmitDelta(text, s.atEmit);
          if !s.saved { return Raises(false), done; }
          return Goes, done;
        case Completed(whole) =>
          var raised := CheckGenerationBounds(s.bounds, "", whole);
          if raised { return Raises(false), done; }
          Outsider(s.during);
          if !s.authorized { return Raises(true), done; }
          if terminal { return Stops, done; }
          return Goes, true;
      }
    }

    method ReadStream(r: Route) returns (v: Verdict)
      modifies this`output, this`cancelled, this`failed, this`terminal
      ensures ProgressOf(v, View(), true) == StreamEnd(Stream(old(View()), limit, r.steps), r.breaks)
    {
      var done := false;
      ghost var d := View();
      for i := 0 to |r.steps|
        invariant Stream(d, limit, r.steps[..i]) == Going(View(), done)
      {
        StreamNext(d, limit, r.steps, i);
        v, done := HandleEvent(r.steps[i], done);
        if !v.Goes? {
          StreamEndsAt(d, limit, r.steps, i + 1);
          return;
        }
      }
      assert r.steps[..|r.steps|] == r.steps;
      return if r.breaks || !done then Raises(false) else Goes;
    }

    method RunRoutes(explicit: bool, routes: seq<Route>) returns (v: Verdict)
      requires tried == 0 && streams == []
      modifies this
      ensures (ProgressOf(v, View(), true), tried, streams) == Routes(old(View()), limit, explicit, routes, 0)
    {
      for i := 0 to |routes|
        invariant tried == i && streams == []
        invariant Routes(old(View()), limit, explicit, routes, 0) == Routes(View(), limit, explicit, routes, i)
      {
        var r := routes[i];
        Outsider(r.before);
        tried := tried + 1;
        if cancelled {
          terminal := true;
          return Stops;
        }
        if r.preflight.NotReady? {
          if r.preflight.broken { failed, output, cancelled := true, "", true; }
          if r.preflight.refused || output != "" || explicit || r.cloud { return Raises(r.preflight.refused); }
        } else {
          streams := streams + [i];
          assert streams == [i];
          v := ReadStream(r);
          return;
        }
      }
      return Raises(false);
    }

    method PublishIfStillWanted(e: Ending) returns (v: Verdict)
      modifies this`output, this`cancelled, this`failed, this`terminal
      ensures ProgressOf(v, View(), true) == Publishes(old(View()), limit, e)
    {
      Outsider(e.before);
      if cancelled {
        terminal := true;
        return Stops;
      }
      if !e.snapshot { return Raises(false); }
      var raised := CheckGenerationBounds(e.bounds, "", None);
      if raised { return Raises(false); }
      Outsider(e.beforeLock);
      if !e.review { return Raises(false); }
      if cancelled {
        terminal := true;
        return Stops;
      }
      Outsider(e.lastCheck);
      v := LookUnderLock(e.authorized, e.during);
    }

    method LookUnderLock(authorized: bool, during: Outside) returns (v: Verdict)
      modifies this`cancelled, this`terminal
      ensures ProgressOf(v, View(), true) == AtLock(old(View()), authorized, during)
    {
      if terminal { return Stops; }
      if cancelled {
        terminal := true;
        return Stops;
      }
      Outsider(during);
      if !authorized { return Raises(true); }
      return if terminal then Stops else Goes;
    }

    method HandleFailure(refused: bool)
      modifies this`output, this`terminal
      ensures View() == OnFailure(old(View()), refused)
    {
      if terminal { return; }
      if failed || (refused && !cancelled) { output := ""; }
      terminal := true;
    }

    method Work(explicit: bool, routes: seq<Route>, start: Outside, e: Ending) returns (handed: bool)
      requires View() == FRESH && tried == 0 && streams == []
      modifies this
      ensures Outcome(View(), tried, streams, handed) == Run(limit, explicit, routes, start, e)
    {
      Outsider(start);
      if cancelled {
        terminal := true;
        return false;
      }
      var v := RunRoutes(explicit, routes);
      if v.Goes? { v := PublishIfStillWanted(e); }
      if v.Raises? { HandleFailure(v.refused); }
      return v.Goes?;
    }
  }
}
