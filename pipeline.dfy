/** The per-request failure protocol of `POST /api/convert` (server.js):
    the `responded` flag, `onFatal`, and the `end`, `exit` and `aborted`
    handlers. Events arrive as a sequence; real timing is outside the model.
    The effects are the calls the handlers make on the response, the source
    stream and the yt-dlp process. */
module Pipeline {
  import opened JsValues

  /** Where a fatal error came from (the `where` argument of `onFatal`). */
  datatype Stage = YtDlpStage | YtdlCoreStage | FfmpegStage | PipelineStage

  datatype Event =
    | Fatal(where: Stage)            // an `error` event of yt-dlp, ytdl-core or ffmpeg, or a throw while wiring ffmpeg
    | EncoderEnd                     // ffmpeg's `end` event
    | ProcessExit(code: Option<int>) // yt-dlp's `exit` event; `None` is a null code (killed by a signal)
    | ClientAborted                  // the request's `aborted` event

  datatype Effect =
    | EndWith500      // res.status(500).end()
    | DestroySource   // sourceStream.destroy()
    | KillProcess     // ytDlpProc.kill('SIGKILL')

  datatype PipeState = PipeState(responded: bool, effects: seq<Effect>)

  const Initial := PipeState(false, [])

  /** The source stream is destroyed, and the yt-dlp process killed when there is one. */
  function Teardown(hasProcess: bool): seq<Effect>
  {
    [DestroySource] + (if hasProcess then [KillProcess] else [])
  }

  /** `onFatal`: a no-op once `responded` is set; otherwise sets it, ends the
      response with 500 and tears down. */
  function OnFatal(s: PipeState, hasProcess: bool): (r: PipeState)
    ensures r.responded
    ensures Extends(s, r)
    ensures Failures(r) == Failures(s) + (if s.responded then 0 else 1)
    ensures s.responded ==> r == s
  {
    if s.responded then s
    else PipeState(true, s.effects + [EndWith500] + Teardown(hasProcess))
  }

  /** One event. `hasProcess` says whether the source is a yt-dlp process (it is
      not when ytdl-core streams the audio; then there is no `exit` listener). */
  function Step(s: PipeState, e: Event, hasProcess: bool): (r: PipeState)
    ensures s.responded ==> r.responded
    ensures Extends(s, r)
    ensures Failures(s) <= Failures(r) <= Failures(s) + 1
    ensures Failures(r) == Failures(s) + 1 <==>
              !s.responded && (e.Fatal? || (e.ProcessExit? && hasProcess && e.code != Some(0)))
    ensures Failures(r) == Failures(s) + 1 ==> r.responded
  {
    match e
    case Fatal(_) => OnFatal(s, hasProcess)
    case EncoderEnd => s.(responded := true)
    case ProcessExit(code) =>
      if hasProcess && !s.responded && code != Some(0) then OnFatal(s, hasProcess) else s
    case ClientAborted => s.(effects := s.effects + Teardown(hasProcess))
  }

  /** A trace of events, applied in order. */
  function Run(s: PipeState, events: seq<Event>, hasProcess: bool): (r: PipeState)
    ensures s.responded ==> r.responded && Failures(r) == Failures(s)
    ensures Extends(s, r)
    decreases |events|
  {
    if events == [] then s
    else
      var t := Step(s, events[0], hasProcess);
      var r := Run(t, events[1..], hasProcess);
      assert r.effects[..|s.effects|] == r.effects[..|t.effects|][..|s.effects|];
      r
  }

  /** Effects are only ever appended: `r` keeps the effects of `s` in front. */
  predicate Extends(s: PipeState, r: PipeState)
  {
    |s.effects| <= |r.effects| && r.effects[..|s.effects|] == s.effects
  }

  /** How many times the response was ended with 500. */
  function Failures(s: PipeState): nat
  {
    multiset(s.effects)[EndWith500]
  }

  // ---------------------------------------------------------------------
  // One step

  /** The first fatal error does the whole teardown. */
  lemma FirstFatalTearsDown(s: PipeState, where: Stage, hasProcess: bool)
    requires !s.responded
    ensures Step(s, Fatal(where), hasProcess) ==
              PipeState(true, s.effects + [EndWith500, DestroySource] + (if hasProcess then [KillProcess] else []))
  {
  }

  /** A yt-dlp exit with code 0, and any exit after `responded`, changes nothing. */
  lemma ExitIgnoredWhenCleanOrResponded(s: PipeState, code: Option<int>, hasProcess: bool)
    requires code == Some(0) || s.responded
    ensures Step(s, ProcessExit(code), hasProcess) == s
  {
  }

  /** A non-zero or null exit code before `responded` is a fatal error. */
  lemma BadExitIsFatal(s: PipeState, code: Option<int>)
    requires !s.responded && code != Some(0)
    ensures Step(s, ProcessExit(code), true) == Step(s, Fatal(YtDlpStage), true)
  {
  }

  /** `aborted` tears the source down but leaves `responded` alone and sends nothing. */
  lemma AbortDoesNotRespond(s: PipeState, hasProcess: bool)
    ensures Step(s, ClientAborted, hasProcess).responded == s.responded
    ensures Step(s, ClientAborted, hasProcess).effects == s.effects + Teardown(hasProcess)
    ensures Failures(Step(s, ClientAborted, hasProcess)) == Failures(s)
  {
  }

  // ---------------------------------------------------------------------
  // Traces

  /** Running two traces one after the other is running their concatenation. */
  lemma {:induction false} RunAppend(s: PipeState, a: seq<Event>, b: seq<Event>, hasProcess: bool)
    ensures Run(s, a + b, hasProcess) == Run(Run(s, a, hasProcess), b, hasProcess)
    decreases |a|
  {
    if a != [] {
      assert (a + b)[0] == a[0];
      assert (a + b)[1..] == a[1..] + b;
      RunAppend(Step(s, a[0], hasProcess), a[1..], b, hasProcess);
    } else {
      assert a + b == b;
    }
  }

  /** Once `responded` is set it stays set, and no further 500 is sent; before
      that, a trace sends at most one 500, which sets `responded`. */
  lemma {:induction false} RunFailures(s: PipeState, events: seq<Event>, hasProcess: bool)
    ensures var t := Run(s, events, hasProcess);
      (s.responded ==> t.responded && Failures(t) == Failures(s)) &&
      Failures(s) <= Failures(t) <= Failures(s) + 1 &&
      (Failures(t) == Failures(s) + 1 ==> t.responded)
    decreases |events|
  {
    if events != [] {
      var s' := Step(s, events[0], hasProcess);
      assert s.responded ==> s'.responded && Failures(s') == Failures(s);
      assert Failures(s) <= Failures(s') <= Failures(s) + 1;
      assert Failures(s') == Failures(s) + 1 ==> s'.responded && !s.responded;
      RunFailures(s', events[1..], hasProcess);
    }
  }

  /** Respond once: whatever happens, the response is ended with 500 at most once. */
  lemma AtMostOneFailure(events: seq<Event>, hasProcess: bool)
    ensures Failures(Run(Initial, events, hasProcess)) <= 1
  {
    RunFailures(Initial, events, hasProcess);
  }

  /** After ffmpeg's `end`, no later event sends a 500. */
  lemma NoFailureAfterEnd(before: seq<Event>, after: seq<Event>, hasProcess: bool)
    ensures var done := Run(Initial, before + [EncoderEnd], hasProcess);
      Failures(Run(Initial, before + [EncoderEnd] + after, hasProcess)) == Failures(done)
  {
    var done := Run(Initial, before + [EncoderEnd], hasProcess);
    RunAppend(Initial, before, [EncoderEnd], hasProcess);
    assert Run(Run(Initial, before, hasProcess), [EncoderEnd], hasProcess) ==
           Step(Run(Initial, before, hasProcess), EncoderEnd, hasProcess);
    assert done.responded;
    RunAppend(Initial, before + [EncoderEnd], after, hasProcess);
    RunFailures(done, after, hasProcess);
  }

  /** A client abort does not stop a later fatal error from ending the response
      with 500: `aborted` does not set `responded`. */
  lemma AbortThenFatalStillResponds(where: Stage, hasProcess: bool)
    ensures Run(Initial, [ClientAborted, Fatal(where)], hasProcess) ==
              PipeState(true, Teardown(hasProcess) + [EndWith500] + Teardown(hasProcess))
  {
    var aborted := Step(Initial, ClientAborted, hasProcess);
    assert aborted == PipeState(false, Teardown(hasProcess));
    assert [ClientAborted, Fatal(where)][1..] == [Fatal(where)];
    assert [Fatal(where)][1..] == [];
    var evs := [ClientAborted, Fatal(where)];
    assert Run(Initial, evs, hasProcess) == Run(aborted, [Fatal(where)], hasProcess);
    assert Run(aborted, [Fatal(where)], hasProcess) == Run(Step(aborted, Fatal(where), hasProcess), [], hasProcess);
  }

  // ---------------------------------------------------------------------
  // The handlers as an object

  /** The state one request's handlers share. */
  class Conversion {
    const hasProcess: bool
    var responded: bool
    var effects: seq<Effect>

    function State(): PipeState
      reads this
    {
      PipeState(responded, effects)
    }

    /** `let responded = false`, nothing done yet. */
    constructor (hasProcess: bool)
      ensures this.hasProcess == hasProcess && State() == Initial
    {
      this.hasProcess := hasProcess;
      responded := false;
      effects := [];
    }

    /** `onFatal(err, code, where)`. */
    method OnFatal(where: Stage)
      modifies this
      ensures old(responded) ==> responded && effects == old(effects)
      ensures !old(responded) ==> responded && effects == old(effects) + [EndWith500] + Teardown(hasProcess)
      ensures State() == Step(old(State()), Fatal(where), hasProcess)
    {
      if responded {
        return;
      }
      responded := true;
      effects := effects + [EndWith500];
      effects := effects + [DestroySource];
      if hasProcess {
        effects := effects + [KillProcess];
      }
    }

    /** ffmpeg's `end` handler. */
    method OnEnd()
      modifies this
      ensures responded && effects == old(effects)
      ensures State() == Step(old(State()), EncoderEnd, hasProcess)
    {
      responded := true;
    }

    /** yt-dlp's `exit` handler. */
    method OnExit(code: Option<int>)
      requires hasProcess
      modifies this
      ensures State() == Step(old(State()), ProcessExit(code), hasProcess)
      ensures (old(responded) || code == Some(0)) ==> State() == old(State())
    {
      if !responded && code != Some(0) {
        OnFatal(YtDlpStage);
      }
    }

    /** The request's `aborted` handler. */
    method OnAborted()
      modifies this
      ensures responded == old(responded) && effects == old(effects) + Teardown(hasProcess)
      ensures State() == Step(old(State()), ClientAborted, hasProcess)
    {
      effects := effects + [DestroySource];
      if hasProcess {
        effects := effects + [KillProcess];
      }
    }
  }
}
