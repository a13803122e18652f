/** The voice-note recorder: browser events, one idempotent finalizer, and the completion that saves the note. */
module Recorder {
  import opened Options
  import opened AudioDrafts

  datatype Cause = Release | Cancel | Focus | Background | VideoEnd | Device | Limit

  datatype LimitKind = DurationLimit | SizeLimit

  /** Why no note was saved. */
  datatype Reason = TooLarge | OutOfSpace | Interrupted | Other

  datatype Update =
    | Recording(elapsed: real, limitReached: bool)
    | Finalizing(elapsed: real, limitReached: bool)
    | Discarded(durationMs: int)
    | NoteSaved(durationMs: int, cause: Cause, limitKind: LimitKind)
    | NoteFailed(elapsed: real, reason: Reason)

  /** How the promise shared by all stop callers settles. */
  datatype Outcome = Nothing | Kept(draft: Draft) | NotSaved(reason: Reason)

  /** The completion: not started, waiting for the digest, waiting for the store, or over. */
  datatype Stage = Waiting | Digesting(draft: Draft) | Saving(draft: Draft) | Closed

  /** What the caller fixes before recording. */
  datatype Identity = Identity(
    id: string,
    responsibility: string,
    requirementKey: string,
    disclosureVersion: string,
    consentVersion: string,
    target: Target,
    noteId: Option<string>)

  /** The answer of the target resolver: it may throw, or leave the identity's own target. */
  datatype Resolution = Throws | Unresolved | At(target: Target)

  /** What the browser answers while an event is handled: three clock readings, whether stop() throws, the resolver. */
  datatype Moment = Moment(asked: real, closed: real, failed: real, stopThrows: bool, resolution: Resolution)

  datatype State = State(
    identity: Identity,
    contentType: string,
    startedAt: real,
    chunks: seq<Bytes>,
    sizeBytes: nat,
    limitKind: LimitKind,
    failure: bool,
    finished: Option<Cause>,
    timer: bool,
    listening: bool,
    live: bool,
    armed: bool,
    stopPending: bool,
    stage: Stage,
    outcome: Option<Outcome>,
    saved: seq<Draft>,
    updates: seq<Update>)

  function Concat(chunks: seq<Bytes>): Bytes {
    if chunks == [] then [] else Concat(chunks[..|chunks| - 1]) + chunks[|chunks| - 1]
  }

  function Elapsed(startedAt: real, now: real): real {
    if now - startedAt > 0.0 then now - startedAt else 0.0
  }

  function Capped(elapsed: real): real {
    if elapsed < MAXIMUM_MS as real then elapsed else MAXIMUM_MS as real
  }

  function Started(identity: Identity, contentType: string, startedAt: real): State {
    State(identity, contentType, startedAt, [], 0, DurationLimit, false, None, true, true, true, false, false,
          Waiting, None, [], [Recording(0.0, false)])
  }

  // ------------------------------------------------------------ specification

  /** A promise settles once. */
  function Settle(outcome: Option<Outcome>, value: Outcome): Option<Outcome> {
    if outcome.Some? then outcome else Some(value)
  }

  function Failing(s: State, reason: Reason, now: real): State {
    s.(updates := s.updates + [NoteFailed(Capped(Elapsed(s.startedAt, now)), reason)],
       outcome := Settle(s.outcome, NotSaved(reason)), stage := Closed)
  }

  function Built(s: State, durationMs: int, resolution: Resolution): Draft {
    var who := s.identity;
    var audio := Concat(s.chunks);
    Draft(Meta(who.id, who.responsibility, who.requirementKey, who.disclosureVersion, who.consentVersion,
               durationMs, s.contentType, |audio|, ""),
          if resolution.At? then resolution.target else who.target, PendingUpload, Some(audio), who.noteId)
  }

  function Completed(s: State, m: Moment): State {
    var c := s.(timer := false, listening := false);
    var durationMs := Capped(Elapsed(s.startedAt, m.closed)).Floor;
    if s.failure then Failing(c, Interrupted, m.failed)
    else if durationMs < MINIMUM_MS then
      c.(updates := s.updates + [Discarded(durationMs)], outcome := Settle(s.outcome, Nothing), stage := Closed)
    else if Concat(s.chunks) == [] || |Concat(s.chunks)| > MAXIMUM_BYTES then Failing(c, TooLarge, m.failed)
    else if m.resolution.Throws? then Failing(c, Other, m.failed)
    else c.(stage := Digesting(Built(s, durationMs, m.resolution)))
  }

  /** An inactive recorder completes at once; a live one is stopped and completes at its stop event. */
  function Halted(s: State, m: Moment): State {
    if !s.live then Completed(s, m)
    else if m.stopThrows then Completed(s.(armed := true, failure := true), m)
    else s.(armed := true, live := false, stopPending := true)
  }

  function Finalized(s: State, cause: Cause, m: Moment): State {
    if s.finished.Some? then s
    else Halted(s.(finished := Some(cause),
                   updates := s.updates + [Finalizing(Capped(Elapsed(s.startedAt, m.asked)), cause.Limit?)]), m)
  }

  function Fed(s: State, chunk: Bytes, m: Moment): State {
    if chunk == [] then s
    else if s.sizeBytes + |chunk| > MAXIMUM_BYTES then Finalized(s.(limitKind := SizeLimit), Limit, m)
    else s.(chunks := s.chunks + [chunk], sizeBytes := s.sizeBytes + |chunk|)
  }

  function Ticked(s: State, now: real, m: Moment): State {
    var elapsed := Elapsed(s.startedAt, now);
    var t := s.(updates := s.updates + [Recording(Capped(elapsed), elapsed >= MAXIMUM_MS as real)]);
    if elapsed >= MAXIMUM_MS as real then Finalized(t, Limit, m) else t
  }

  function Faulted(s: State, m: Moment): State {
    Finalized(s.(failure := true), Device, m)
  }

  function Stopped(s: State, m: Moment): State {
    var t := s.(stopPending := false);
    if s.armed then Completed(t, m) else t
  }

  function Sealed(draft: Draft, sha256: string): Draft {
    draft.(meta := draft.meta.(sha256 := sha256))
  }

  /** The digest arrives, or fails; saving then refuses a note that is not valid. */
  function Digested(s: State, sha256: Option<string>, now: real): State
    requires s.stage.Digesting?
  {
    if sha256.None? || !Saveable(Sealed(s.stage.draft, sha256.value)) then Failing(s, Other, now)
    else s.(stage := Saving(Sealed(s.stage.draft, sha256.value)))
  }

  datatype Storing = Committed | QuotaExceeded | Aborted

  function Answered(s: State, result: Storing, now: real): State
    requires s.stage.Saving? && s.finished.Some?
  {
    match result
    case Committed =>
      s.(saved := s.saved + [s.stage.draft], outcome := Settle(s.outcome, Kept(s.stage.draft)), stage := Closed,
         updates := s.updates + [NoteSaved(s.stage.draft.meta.durationMs, s.finished.value, s.limitKind)])
    case QuotaExceeded => Failing(s, OutOfSpace, now)
    case Aborted => Failing(s, Other, now)
  }

  // ------------------------------------------------------------------- class

  /** The closure of a started recording, with the asynchronous completion cut at its awaits. */
  class AudioRecorder {
    const identity: Identity
    const contentType: string
    const startedAt: real
    var chunks: seq<Bytes>
    var sizeBytes: nat
    var limitKind: LimitKind
    var recorderFailure: bool
    var finished: Option<Cause>
    var timer: bool
    var listening: bool
    var live: bool
    var armed: bool
    var stopPending: bool
    var stage: Stage
    var outcome: Option<Outcome>
    var saved: seq<Draft>
    var updates: seq<Update>

    function Value(): State
      reads this
    {
      State(identity, contentType, startedAt, chunks, sizeBytes, limitKind, recorderFailure, finished, timer, listening,
            live, armed, stopPending, stage, outcome, saved, updates)
    }

    constructor (identity: Identity, contentType: string, startedAt: real)
      ensures Value() == Started(identity, contentType, startedAt)
    {
      this.identity, this.contentType, this.startedAt := identity, contentType, startedAt;
      chunks, sizeBytes, limitKind, recorderFailure, finished := [], 0, DurationLimit, false, None;
      timer, listening, live, armed, stopPending := true, true, true, false, false;
      stage, outcome, saved, updates := Waiting, None, [], [Recording(0.0, false)];
    }

    method Resolve(value: Outcome)
      modifies this
      ensures Value() == old(Value()).(outcome := Settle(old(outcome), value))
    {
      if outcome.None? {
        outcome := Some(value);
      }
    }

    method Cleanup()
      modifies this
      ensures Value() == old(Value()).(timer := false, listening := false)
    {
      timer := false;
      listening := false;
    }

    method Fail(reason: Reason, now: real)
      modifies this
      ensures Value() == Failing(old(Value()), reason, now)
    {
      updates := updates + [NoteFailed(Capped(Elapsed(startedAt, now)), reason)];
      Resolve(NotSaved(reason));
      stage := Closed;
    }

    /** Joins the chunks into one blob. */
    method Join() returns (blob: Bytes)
      ensures blob == Concat(chunks)
    {
      blob := [];
      for i := 0 to |chunks|
        invariant blob == Concat(chunks[..i])
      {
        assert chunks[..i + 1][..i] == chunks[..i];
        blob := blob + chunks[i];
      }
      assert chunks[..|chunks|] == chunks;
    }

    /** The completion up to its first await. */
    method Complete(m: Moment)
      modifies this
      ensures Value() == Completed(old(Value()), m)
    {
      hide Concat, Capped, Elapsed;
      Cleanup();
      if recorderFailure {
        Fail(Interrupted, m.failed);
        return;
      }
      var durationMs := Capped(Elapsed(startedAt, m.closed)).Floor;
      var blob := Join();
      if durationMs < MINIMUM_MS {
        updates := updates + [Discarded(durationMs)];
        Resolve(Nothing);
        stage := Closed;
        return;
      }
      if |blob| == 0 || |blob| > MAXIMUM_BYTES {
        Fail(TooLarge, m.failed);
        return;
      }
      if m.resolution.Throws? {
        Fail(Other, m.failed);
        return;
      }
      var target := if m.resolution.At? then m.resolution.target else identity.target;
      var meta := Meta(identity.id, identity.responsibility, identity.requirementKey, identity.disclosureVersion,
                       identity.consentVersion, durationMs, contentType, |blob|, "");
      stage := Digesting(Draft(meta, target, PendingUpload, Some(blob), identity.noteId));
    }

    method Halt(m: Moment)
      modifies this
      ensures Value() == Halted(old(Value()), m)
    {
      hide Completed;
      if !live {
        Complete(m);
        return;
      }
      armed := true;
      if m.stopThrows {
        recorderFailure := true;
        Complete(m);
      } else {
        live := false;
        stopPending := true;
      }
    }

    /** Every stop cause comes here; only the first one counts. */
    method Finalize(cause: Cause, m: Moment)
      modifies this
      ensures Value() == Finalized(old(Value()), cause, m)
    {
      hide Halted, Capped, Elapsed;
      if finished.Some? {
        return;
      }
      finished := Some(cause);
      updates := updates + [Finalizing(Capped(Elapsed(startedAt, m.asked)), cause.Limit?)];
      Halt(m);
    }

    method OnDataAvailable(chunk: Bytes, m: Moment)
      modifies this
      ensures Value() == Fed(old(Value()), chunk, m)
    {
      hide Finalized;
      if |chunk| == 0 {
        return;
      }
      if sizeBytes + |chunk| > MAXIMUM_BYTES {
        limitKind := SizeLimit;
        Finalize(Limit, m);
        return;
      }
      chunks := chunks + [chunk];
      sizeBytes := sizeBytes + |chunk|;
    }

    method OnTimer(now: real, m: Moment)
      modifies this
      ensures Value() == Ticked(old(Value()), now, m)
    {
      hide Finalized, Capped, Elapsed;
      var duration := Elapsed(startedAt, now);
      updates := updates + [Recording(Capped(duration), duration >= MAXIMUM_MS as real)];
      if duration >= MAXIMUM_MS as real {
        Finalize(Limit, m);
      }
    }

    method OnError(m: Moment)
      modifies this
      ensures Value() == Faulted(old(Value()), m)
    {
      hide Finalized;
      recorderFailure := true;
      Finalize(Device, m);
    }

    /** The stop event of the media recorder. */
    method OnStop(m: Moment)
      modifies this
      ensures Value() == Stopped(old(Value()), m)
    {
      hide Completed;
      stopPending := false;
      if armed {
        Complete(m);
      }
    }

    /** The completion from the digest to the store. */
    method OnDigest(sha256: Option<string>, now: real)
      requires stage.Digesting?
      modifies this
      ensures Value() == Digested(old(Value()), sha256, now)
    {
      if sha256.None? {
        Fail(Other, now);
        return;
      }
      var draft := stage.draft.(meta := stage.draft.meta.(sha256 := sha256.value));
      if Saveable(draft) {
        stage := Saving(draft);
      } else {
        Fail(Other, now);
      }
    }

    /** The completion from the store on. */
    method OnStored(result: Storing, now: real)
      requires stage.Saving? && finished.Some?
      modifies this
      ensures Value() == Answered(old(Value()), result, now)
    {
      match result {
        case Committed =>
          var draft := stage.draft;
          saved := saved + [draft];
          updates := updates + [NoteSaved(draft.meta.durationMs, finished.value, limitKind)];
          Resolve(Kept(draft));
          stage := Closed;
        case QuotaExceeded =>
          Fail(OutOfSpace, now);
        case Aborted =>
          Fail(Other, now);
      }
    }
  }
}
