/**
 An observer following one job's output while its worker appends, discards and ends. Each poll is one
 look under the job's condition; everything else happens between looks.
 */
module EventStream {
  import opened Wrappers

  // What `public()` shows. A completion that is still settling its accounts shows as running.
  datatype Shown = Running | ShownCompleted | ShownOther

  // `closed`: the status in memory is terminal, so nothing more is appended.
  datatype Job = Job(output: string, cancelled: bool, closed: bool, shown: Shown)

  // `sent` is the observer's offset; `received` the chunks it was given; `last` the status its final chunk came with.
  datatype Observer = Observer(sent: nat, received: seq<string>, ended: bool, last: Option<Shown>)

  // `longest` records the longest output the job ever had.
  datatype State = State(job: Job, observer: Observer, longest: string)

  // The four looks at `available()` in one turn of the loop, and whether a heartbeat is due.
  datatype Look = Look(atTop: bool, inside: bool, beforeSend: bool, afterRelease: bool, heartbeat: bool)

  datatype Action =
    | Append(text: string)     // a delta
    | Signal                   // a cancel request
    | Discard                  // a broken bound: the output goes and the signal is set
    | Complete(settling: bool) // only for a job that nobody cancelled
    | Settle                   // the account of a completion is reported
    | Close(discard: bool)     // failed or cancelled, possibly dropping the output
    | Review                   // accepted, rejected and the like: another terminal status
    | Poll(look: Look)

  function Init(): State {
    State(Job("", false, false, Running), Observer(0, [], false, None), "")
  }

  function Longer(s: State, job: Job): State {
    s.(job := job, longest := if |job.output| > |s.longest| then job.output else s.longest)
  }

  function Chunk(output: string, sent: nat): string {
    if sent <= |output| then output[sent..] else ""
  }

  function DoPoll(o: Observer, job: Job, look: Look): Observer {
    var chunk := Chunk(job.output, o.sent);
    if o.ended then o
    else if !look.atTop || !look.inside then o.(ended := true)
    else if chunk == "" && job.shown.Running? && !look.heartbeat then o
    else if !look.beforeSend || !look.afterRelease then o.(ended := true)
    else
      Observer(|job.output|, o.received + [chunk], !job.shown.Running?, if job.shown.Running? then o.last else Some(job.shown))
  }

  function Apply(s: State, a: Action): State {
    var j := s.job;
    match a
    case Append(text) => if j.cancelled || j.closed then s else Longer(s, j.(output := j.output + text))
    case Signal => s.(job := j.(cancelled := true))
    case Discard => if j.closed then s else s.(job := j.(output := "", cancelled := true))
    case Complete(settling) =>
      if j.closed || j.cancelled then s else s.(job := j.(closed := true, shown := if settling then Running else ShownCompleted))
    case Settle => if j.closed && j.shown.Running? then s.(job := j.(shown := ShownCompleted)) else s
    case Close(discard) =>
      s.(job := j.(closed := true, shown := ShownOther, output := if discard then "" else j.output))
    case Review => if j.closed && !j.shown.Running? then s.(job := j.(shown := ShownOther)) else s
    case Poll(look) => s.(observer := DoPoll(s.observer, j, look))
  }

  function Exec(s: State, actions: seq<Action>): State
    decreases |actions|
  {
    if actions == [] then s else Apply(Exec(s, actions[..|actions| - 1]), actions[|actions| - 1])
  }

  function Concat(chunks: seq<string>): string {
    if chunks == [] then "" else Concat(chunks[..|chunks| - 1]) + chunks[|chunks| - 1]
  }

  predicate Prefix(a: string, b: string) { |a| <= |b| && a == b[..|a|] }

  /******* invariant *******/

  // Nothing was dropped: the observer has exactly the output up to its offset.
  predicate Following(s: State) {
    && s.longest == s.job.output && s.observer.sent <= |s.job.output|
    && (!s.observer.ended ==> Concat(s.observer.received) == s.job.output[..s.observer.sent])
  }

  // The output was dropped: nothing is ever appended again, and nothing is ever completed.
  predicate Dropped(s: State) {
    s.job.output == "" && (s.job.cancelled || s.job.closed) && !s.job.shown.ShownCompleted?
    && (s.job.closed ==> s.job.shown.ShownOther?)
  }

  predicate Inv(s: State) {
    && (Following(s) || Dropped(s))
    && Prefix(Concat(s.observer.received), s.longest)
    && (s.job.shown.ShownCompleted? ==> s.job.closed && Following(s))
    && (s.observer.last == Some(ShownCompleted) ==>
          s.observer.ended && s.job.closed && Concat(s.observer.received) == s.longest)
  }

  lemma ConcatAppend(chunks: seq<string>, c: string)
    ensures Concat(chunks + [c]) == Concat(chunks) + c
  {
    assert (chunks + [c])[..|chunks|] == chunks;
  }

  lemma PollInv(s: State, look: Look)
    requires Inv(s)
    ensures Inv(Apply(s, Poll(look)))
  {
    var o, out := s.observer, s.job.output;
    var chunk := Chunk(out, o.sent);
    var o' := DoPoll(o, s.job, look);
    if o'.received != o.received {
      ConcatAppend(o.received, chunk);
      if Following(s) {
        assert out[..o.sent] + out[o.sent..] == out && out[..|out|] == out;
      } else {
        assert Concat(o.received) + "" == Concat(o.received);
      }
    }
  }

  lemma StepInv(s: State, a: Action)
    requires Inv(s)
    ensures Inv(Apply(s, a))
  {
    match a
    case Poll(look) => PollInv(s, look);
    case Append(text) =>
      if !s.job.cancelled && !s.job.closed {
        var out := s.job.output + text;
        assert out[..s.observer.sent] == s.job.output[..s.observer.sent];
        var got := Concat(s.observer.received);
        assert out[..|got|] == s.job.output[..|got|];
        assert text == "" ==> out == s.job.output;
      }
    case _ =>
  }

  lemma {:induction false} ExecInv(actions: seq<Action>)
    ensures Inv(Exec(Init(), actions))
    decreases |actions|
  {
    if actions != [] {
      ExecInv(actions[..|actions| - 1]);
      StepInv(Exec(Init(), actions[..|actions| - 1]), actions[|actions| - 1]);
    }
  }

  // Under every schedule, what the observer was given is a prefix of the longest output: nothing twice, nothing skipped.
  lemma ReceivedIsPrefix(actions: seq<Action>)
    ensures var s := Exec(Init(), actions);
            Prefix(Concat(s.observer.received), s.longest)
  {
    ExecInv(actions);
  }

  // A stream whose last status is COMPLETED has delivered the whole output, which was never dropped before.
  lemma CompletedStreamIsWhole(actions: seq<Action>, look: Look)
    ensures var s := Exec(Init(), actions);
            var s' := Apply(s, Poll(look));
            s.observer.last != Some(ShownCompleted) && s'.observer.last == Some(ShownCompleted) ==>
              s'.observer.ended && Concat(s'.observer.received) == s'.job.output == s'.longest
  {
    ExecInv(actions);
    PollInv(Exec(Init(), actions), look);
  }

  // Following a live stream, the observer is never further behind than its offset says.
  lemma OffsetIsExact(actions: seq<Action>)
    ensures var s := Exec(Init(), actions);
            !s.observer.ended && s.job.output != "" ==>
              s.observer.sent <= |s.job.output| && Concat(s.observer.received) == s.job.output[..s.observer.sent]
  {
    ExecInv(actions);
  }

  const OPEN: Look := Look(true, true, true, true, false)

  // There is something to send: new output, a terminal status, or a heartbeat.
  predicate Due(s: State, look: Look) {
    |s.job.output| > s.observer.sent || !s.job.shown.Running? || look.heartbeat
  }

  // A turn sends exactly when the observer still listens, something is due and all four looks found it available; then
  // it has the whole output. It ends exactly when a look that is made fails, or after sending a terminal status.
  lemma TurnExactly(actions: seq<Action>, look: Look)
    ensures var s := Exec(Init(), actions);
            var s' := Apply(s, Poll(look));
            var sends := !s.observer.ended && Due(s, look) && look.atTop && look.inside && look.beforeSend && look.afterRelease;
            && s'.job == s.job && s'.longest == s.longest
            && (sends ==> |s'.observer.received| == |s.observer.received| + 1 && s'.observer.sent == |s.job.output|)
            && (sends && s.job.output != "" ==> Concat(s'.observer.received) == s.job.output)
            && (!sends ==> s'.observer.received == s.observer.received && s'.observer.sent == s.observer.sent)
            && (s'.observer.ended <==>
                  || s.observer.ended || !look.atTop || !look.inside
                  || (Due(s, look) && (!look.beforeSend || !look.afterRelease || !s.job.shown.Running?)))
            && (sends && !s.job.shown.Running? ==> s'.observer.last == Some(s.job.shown))
  {
    ExecInv(actions);
    var s := Exec(Init(), actions);
    var out, sent := s.job.output, s.observer.sent;
    if sent <= |out| { assert out[..sent] + out[sent..] == out; }
    ConcatAppend(s.observer.received, Chunk(out, sent));
  }

  // A draft in two parts, followed to its end: the observer gets both, and COMPLETED only once the account is settled.
  lemma FollowedToTheEnd(x: string, y: string)
    requires x != "" && y != ""
    ensures var first := Apply(Apply(Init(), Append(x)), Poll(OPEN));
            var settling := Apply(Apply(Apply(first, Append(y)), Complete(true)), Poll(OPEN));
            var settled := Apply(Apply(settling, Settle), Poll(OPEN));
            && first.observer == Observer(|x|, [x], false, None)
            && settling.observer == Observer(|x + y|, [x, y], false, None)
            && settled.observer == Observer(|x + y|, [x, y, ""], true, Some(ShownCompleted))
            && settled.job.output == settled.longest == x + y
            && Apply(settling, Review) == settling && Apply(settled, Review).job.shown == ShownOther
            && Apply(settled, Append("z")) == settled
  {
    assert x[0..] == x && (x + y)[|x|..] == y && (x + y)[|x + y|..] == "";
  }

  // What is discarded is gone, and nothing follows it: no delta, no completion. A failure that keeps its draft is shown.
  lemma DiscardedForGood(x: string, y: string)
    requires x != ""
    ensures var dropped := Apply(Apply(Init(), Append(x)), Discard);
            && dropped.job.output == "" && dropped.longest == x
            && Apply(dropped, Append(y)) == dropped && Apply(dropped, Complete(false)) == dropped
    ensures var failed := Apply(Apply(Init(), Append(x)), Close(false));
            && failed.job.output == x && Apply(failed, Append(y)) == failed && Apply(failed, Complete(true)) == failed
            && Apply(failed, Settle) == failed && Apply(failed, Discard) == failed
            && Apply(failed, Poll(OPEN)).observer == Observer(|x|, [x], true, Some(ShownOther))
    ensures Apply(Apply(Apply(Init(), Append(x)), Close(true)), Poll(OPEN)).observer == Observer(0, [""], true, Some(ShownOther))
    ensures var done := Apply(Init(), Complete(false));
            done.job.shown == ShownCompleted && Apply(done, Poll(OPEN)).observer.last == Some(ShownCompleted)
  {
    assert x[0..] == x;
  }

  // The generator of `events`: one turn of its loop.
  class Stream {
    var sent: nat
    var received: seq<string>
    var ended: bool
    var last: Option<Shown>

    constructor ()
      ensures View() == Observer(0, [], false, None)
    {
      sent, received, ended, last := 0, [], false, None;
    }

    function View(): Observer
      reads this
    {
      Observer(sent, received, ended, last)
    }

    method Turn(job: Job, look: Look)
      modifies this
      ensures View() == DoPoll(old(View()), job, look)
    {
      if ended { return; }
      if !look.atTop || !look.inside {
        ended := true;
        return;
      }
      var chunk := Chunk(job.output, sent);
      if chunk == "" && job.shown.Running? && !look.heartbeat { return; }
      if !look.beforeSend || !look.afterRelease {
        ended := true;
        return;
      }
      sent := |job.output|;
      received := received + [chunk];
      if !job.shown.Running? {
        last := Some(job.shown);
        ended := true;
      }
    }
  }
}
