/** Which recordings are saved, dropped or lost, and why: the outcome of every order of browser events, said by the
    events themselves. */
module RecorderOutcomes {
  import opened Options
  import opened AudioDrafts
  import opened Recorder
  import opened RecorderRuns

  // ------------------------------------------------------------------- events

  /** The moment an event brings along. */
  function MomentOf(e: Event): Option<Moment> {
    match e
    case Data(_, m) => Some(m)
    case Tick(_, m) => Some(m)
    case TrackEnded(m) => Some(m)
    case Fault(m) => Some(m)
    case Stop(_, m) => Some(m)
    case StopEvent(m) => Some(m)
    case _ => None
  }

  predicate Overflows(s: State, e: Event) {
    e.Data? && e.chunk != [] && s.sizeBytes + |e.chunk| > 5 * 1024 * 1024
  }

  /** Why an event asks the recording to end: a chunk beyond 5 MB, sixty seconds, a lost device or an error, a caller.
      */
  function CauseOf(s: State, e: Event): Option<Cause> {
    match e
    case Data(_, _) => if Overflows(s, e) then Some(Limit) else None
    case Tick(now, _) => if now - s.startedAt >= 60_000.0 then Some(Limit) else None
    case TrackEnded(_) => Some(Device)
    case Fault(_) => Some(Device)
    case Stop(cause, _) => Some(cause)
    case _ => None
  }

  /** The first request to end a recording that is still running. */
  predicate StopsRecorder(s: State, e: Event) {
    s.finished.None? && CauseOf(s, e).Some? && s.live
  }

  /** An error of the recorder, or a stop request that throws. */
  predicate Interrupts(s: State, e: Event) {
    e.Fault? || (StopsRecorder(s, e) && MomentOf(e).Some? && MomentOf(e).value.stopThrows)
  }

  /** The event at which the completion begins: the first request to end a recording that is no longer running or that
      cannot be stopped, or the stop event after a request. */
  predicate Begins(s: State, e: Event) {
    s.stage.Waiting? &&
    if s.finished.None? then CauseOf(s, e).Some? && MomentOf(e).Some? && (!s.live || MomentOf(e).value.stopThrows)
    else e.StopEvent?
  }

  /** The length of the recording, in whole milliseconds, at most sixty seconds. */
  function Length(s: State, m: Moment): int {
    if m.closed <= s.startedAt then 0
    else if m.closed - s.startedAt >= 60_000.0 then 60_000
    else (m.closed - s.startedAt).Floor
  }

  /** The draft that the completion builds. */
  predicate IsDraftOf(s: State, m: Moment, draft: Draft) {
    var who := s.identity;
    && draft.meta.id == who.id && draft.meta.responsibility == who.responsibility
    && draft.meta.requirementKey == who.requirementKey && draft.meta.disclosureVersion == who.disclosureVersion
    && draft.meta.consentVersion == who.consentVersion && draft.noteId == who.noteId
    && draft.meta.contentType == s.contentType && draft.meta.durationMs == Length(s, m)
    && draft.audio == Some(Concat(s.chunks)) && draft.meta.sizeBytes == |Concat(s.chunks)|
    && draft.state == PendingUpload
    && draft.target == (match m.resolution case At(target) => target case _ => who.target)
  }

  /** What the completion makes of a recording, depending on whether it was interrupted. */
  ghost predicate Concludes(s: State, m: Moment, interrupted: bool, t: State) {
    if interrupted then t.outcome == Some(NotSaved(Interrupted))
    else if Length(s, m) < 500 then t.outcome == Some(Nothing)
    else if Concat(s.chunks) == [] then t.outcome == Some(NotSaved(TooLarge))
    else if m.resolution.Throws? then t.outcome == Some(NotSaved(Other))
    else t.outcome == None && t.stage.Digesting? && IsDraftOf(s, m, t.stage.draft)
  }

  // ------------------------------------------------------------------ one step

  /** What stays as it is when a recording is ended. */
  predicate SameRecording(s: State, t: State) {
    && t.identity == s.identity && t.contentType == s.contentType && t.startedAt == s.startedAt
    && t.chunks == s.chunks && t.sizeBytes == s.sizeBytes
  }

  lemma LengthIs(s: State, m: Moment)
    ensures Capped(Elapsed(s.startedAt, m.closed)).Floor == Length(s, m)
  {
  }

  lemma CompletedConcludes(s: State, m: Moment)
    requires s.outcome.None? && |Concat(s.chunks)| <= MAXIMUM_BYTES
    ensures var t := Completed(s, m);
      && Concludes(s, m, s.failure, t) && !t.stage.Waiting?
      && SameRecording(s, t) && t.finished == s.finished && t.failure == s.failure && t.limitKind == s.limitKind
  {
    LengthIs(s, m);
    hide Concat, Capped, Elapsed, Length;
  }

  lemma HaltedConcludes(s: State, m: Moment)
    requires s.outcome.None? && |Concat(s.chunks)| <= MAXIMUM_BYTES && s.stage.Waiting?
    ensures var t := Halted(s, m);
      && SameRecording(s, t) && t.finished == s.finished && t.limitKind == s.limitKind
      && t.failure == (s.failure || (s.live && m.stopThrows))
      && (if !s.live || m.stopThrows then !t.stage.Waiting? && Concludes(s, m, t.failure, t)
          else t.stage.Waiting? && t.outcome.None?)
  {
    hide Concat, Completed, Concludes, Length;
    CompletedConcludes(s, m);
    CompletedConcludes(s.(armed := true, failure := true), m);
    SameConclusion(s, s.(armed := true, failure := true), m, true, Halted(s, m));
  }

  lemma SameConclusion(s: State, r: State, m: Moment, interrupted: bool, t: State)
    requires SameRecording(s, r)
    ensures Concludes(s, m, interrupted, t) <==> Concludes(r, m, interrupted, t)
  {
    hide Concat;
  }

  /** Asking a recording to end for the first time. */
  lemma FinalizedConcludes(s: State, cause: Cause, m: Moment)
    requires s.outcome.None? && |Concat(s.chunks)| <= MAXIMUM_BYTES && s.stage.Waiting? && s.finished.None?
    ensures var t := Finalized(s, cause, m);
      && SameRecording(s, t) && t.finished == Some(cause) && t.limitKind == s.limitKind
      && t.failure == (s.failure || (s.live && m.stopThrows))
      && (if !s.live || m.stopThrows then !t.stage.Waiting? && Concludes(s, m, t.failure, t)
          else t.stage.Waiting? && t.outcome.None?)
  {
    hide Concat, Halted, Concludes, Capped, Elapsed;
    var update := Finalizing(Capped(Elapsed(s.startedAt, m.asked)), cause.Limit?);
    var f := s.(finished := Some(cause), updates := s.updates + [update]);
    HaltedConcludes(f, m);
    SameConclusion(s, f, m, Finalized(s, cause, m).failure, Finalized(s, cause, m));
  }

  /** A recording in progress: no outcome, bytes within bounds, and a stop event only after a request. */
  predicate InProgress(s: State) {
    s.outcome.None? && |Concat(s.chunks)| <= MAXIMUM_BYTES && s.stage.Waiting? && (s.finished.Some? <==> s.armed)
  }

  lemma InvInProgress(s: State)
    requires Inv(s) && s.stage.Waiting?
    ensures InProgress(s)
  {
    hide Report, Sound, Saveable;
  }

  /** What one event does to a recording whose completion has not begun. */
  ghost predicate Advances(s: State, e: Event, t: State) {
    && t.finished == (if s.finished.Some? then s.finished else CauseOf(s, e))
    && t.failure == (s.failure || Interrupts(s, e))
    && t.limitKind == (if Overflows(s, e) then SizeLimit else s.limitKind)
    && (t.stage.Waiting? <==> !Begins(s, e))
    && (t.stage.Waiting? ==> t.outcome == None)
    && (!t.stage.Waiting? ==> MomentOf(e).Some? && Concludes(s, MomentOf(e).value, t.failure, t))
    && t.chunks == (if e.Data? && e.chunk != [] && !Overflows(s, e) then s.chunks + [e.chunk] else s.chunks)
    && t.identity == s.identity && t.contentType == s.contentType && t.startedAt == s.startedAt
  }

  lemma DataAdvances(s: State, chunk: Bytes, m: Moment)
    requires InProgress(s)
    ensures Advances(s, Data(chunk, m), Fed(s, chunk, m))
  {
    hide Concat, Finalized, Concludes;
    if Overflows(s, Data(chunk, m)) && s.finished.None? {
      var r := s.(limitKind := SizeLimit);
      FinalizedConcludes(r, Limit, m);
      SameConclusion(s, r, m, Fed(s, chunk, m).failure, Fed(s, chunk, m));
    }
    FinalizedOnce(s.(limitKind := SizeLimit), Limit, m);
  }

  lemma FinalizedOnce(s: State, cause: Cause, m: Moment)
    ensures s.finished.Some? ==> Finalized(s, cause, m) == s
  {
  }

  lemma TickAdvances(s: State, now: real, m: Moment)
    requires InProgress(s)
    ensures Advances(s, Tick(now, m), Ticked(s, now, m))
  {
    assert Elapsed(s.startedAt, now) >= MAXIMUM_MS as real <==> now - s.startedAt >= 60_000.0;
    hide Concat, Finalized, Concludes, Capped, Elapsed;
    var update := Recording(Capped(Elapsed(s.startedAt, now)), Elapsed(s.startedAt, now) >= MAXIMUM_MS as real);
    var r := s.(updates := s.updates + [update]);
    FinalizedOnce(r, Limit, m);
    if now - s.startedAt >= 60_000.0 && s.finished.None? {
      FinalizedConcludes(r, Limit, m);
      SameConclusion(s, r, m, Ticked(s, now, m).failure, Ticked(s, now, m));
    }
  }

  lemma RequestAdvances(s: State, cause: Cause, m: Moment)
    requires InProgress(s)
    ensures Advances(s, Stop(cause, m), Finalized(s, cause, m))
    ensures cause == Device ==> Advances(s, TrackEnded(m), Finalized(s, Device, m))
  {
    hide Concat, Finalized, Concludes;
    FinalizedOnce(s, cause, m);
    if s.finished.None? {
      FinalizedConcludes(s, cause, m);
    }
  }

  lemma FaultAdvances(s: State, m: Moment)
    requires InProgress(s)
    ensures Advances(s, Fault(m), Faulted(s, m))
  {
    hide Concat, Finalized, Concludes;
    var r := s.(failure := true);
    FinalizedOnce(r, Device, m);
    if s.finished.None? {
      FinalizedConcludes(r, Device, m);
      SameConclusion(s, r, m, true, Faulted(s, m));
    }
  }

  lemma StopEventAdvances(s: State, m: Moment)
    requires InProgress(s)
    ensures Advances(s, StopEvent(m), Stopped(s, m))
  {
    hide Concat, Completed, Concludes;
    var r := s.(stopPending := false);
    if s.armed {
      CompletedConcludes(r, m);
      SameConclusion(s, r, m, s.failure, Completed(r, m));
    }
  }

  /** Every event, in every reachable state before the completion: the first request to end the recording is the one
      that counts, an error or a stop that throws is remembered, chunks that fit are kept, and the completion begins
      with the event it should and concludes what the recording deserves. */
  lemma EventAdvances(s: State, e: Event)
    requires Inv(s) && s.stage.Waiting? && Enabled(s, e)
    ensures Advances(s, e, Apply(s, e))
  {
    InvInProgress(s);
    hide Inv, InProgress, Advances, Fed, Ticked, Finalized, Faulted, Stopped;
    match e {
      case Data(chunk, m) => DataAdvances(s, chunk, m);
      case Tick(now, m) => TickAdvances(s, now, m);
      case TrackEnded(m) => RequestAdvances(s, Device, m);
      case Fault(m) => FaultAdvances(s, m);
      case Stop(cause, m) => RequestAdvances(s, cause, m);
      case Inactivated => InactivationAdvances(s);
      case StopEvent(m) => StopEventAdvances(s, m);
      case _ =>
    }
  }

  lemma InactivationAdvances(s: State)
    requires InProgress(s)
    ensures Advances(s, Inactivated, s.(live := false, stopPending := true))
  {
    hide Concat, Concludes;
  }

  // --------------------------------------------------------------------- runs

  /** An error, or a stop request that throws, came before the completion began or with the event that began it. */
  ghost predicate InterruptedIn(start: State, events: seq<Event>)
    decreases |events|
  {
    if events == [] then false
    else
      var earlier, e := events[..|events| - 1], events[|events| - 1];
      || InterruptedIn(start, earlier)
      || (Legal(start, earlier) && After(start, earlier).stage.Waiting? && Interrupts(After(start, earlier), e))
  }

  /** The event settles the promise of all stop callers with this outcome. */
  ghost predicate Settles(s: State, interruptedBefore: bool, e: Event, outcome: Outcome) {
    match s.stage
    case Waiting =>
      && Begins(s, e) && MomentOf(e).Some?
      && var m, interrupted := MomentOf(e).value, interruptedBefore || Interrupts(s, e);
      (match outcome
       case NotSaved(Interrupted) => interrupted
       case Nothing => !interrupted && Length(s, m) < 500
       case NotSaved(TooLarge) => !interrupted && Length(s, m) >= 500 && Concat(s.chunks) == []
       case NotSaved(Other) =>
         !interrupted && Length(s, m) >= 500 && Concat(s.chunks) != [] && m.resolution.Throws?
       case _ => false)
    case Digesting(draft) =>
      outcome == NotSaved(Other) && e.DigestReady? && (e.sha256.None? || !Saveable(Sealed(draft, e.sha256.value)))
    case Saving(draft) =>
      e.StoreReady? &&
      (match e.result
       case Committed => outcome == Kept(draft)
       case QuotaExceeded => outcome == NotSaved(OutOfSpace)
       case Aborted => outcome == NotSaved(Other))
    case Closed => false
  }

  ghost predicate SettledIn(start: State, events: seq<Event>, outcome: Outcome)
    decreases |events|
  {
    if events == [] then false
    else
      var earlier, e := events[..|events| - 1], events[|events| - 1];
      || SettledIn(start, earlier, outcome)
      || (Legal(start, earlier) && Settles(After(start, earlier), InterruptedIn(start, earlier), e, outcome))
  }

  /** What one event does to a recording while it is hashed or stored. */
  lemma LateAdvances(s: State, e: Event, outcome: Outcome)
    requires Inv(s) && Enabled(s, e) && (s.stage.Digesting? || s.stage.Saving?)
    ensures Apply(s, e).outcome == Some(outcome) <==> Settles(s, false, e, outcome)
    ensures !Apply(s, e).stage.Waiting? && !Settles(s, false, e, NotSaved(Interrupted))
    ensures s.outcome.None?
  {
    InvLate(s);
    hide Report, Concat, Saveable, Sealed, Capped, Elapsed, Inv, Sound, Completed;
  }

  lemma InvLate(s: State)
    requires Inv(s) && (s.stage.Digesting? || s.stage.Saving?)
    ensures s.outcome.None? && s.finished.Some? && !s.timer && !s.listening
    ensures !(s.armed && (s.live || s.stopPending))
  {
    hide Report, Sound, Saveable, Concat;
  }

  lemma WaitingSettles(s: State, e: Event, outcome: Outcome)
    requires Inv(s) && s.stage.Waiting? && Enabled(s, e)
    ensures Apply(s, e).outcome == Some(outcome) <==> Settles(s, s.failure, e, outcome)
  {
    EventAdvances(s, e);
    hide Inv, Apply, Enabled, Concat, Length, Begins, Interrupts, IsDraftOf;
  }

  /** The part of the history that decides: whether it was interrupted, and what has settled. */
  ghost predicate Remembers(start: State, events: seq<Event>)
    requires Legal(start, events)
  {
    var s := After(start, events);
    && (s.stage.Waiting? ==> (s.failure <==> InterruptedIn(start, events)))
    && (!s.stage.Waiting? ==> (InterruptedIn(start, events) <==> s.outcome == Some(NotSaved(Interrupted))))
    && (forall outcome :: s.outcome == Some(outcome) <==> SettledIn(start, events, outcome))
  }

  lemma StepRemembers(start: State, earlier: seq<Event>, e: Event)
    requires Legal(start, earlier) && Inv(After(start, earlier)) && Enabled(After(start, earlier), e)
    requires Legal(start, earlier + [e]) && After(start, earlier + [e]) == Apply(After(start, earlier), e)
    requires Remembers(start, earlier)
    ensures Remembers(start, earlier + [e])
  {
    var s, t, events := After(start, earlier), Apply(After(start, earlier), e), earlier + [e];
    assert events[..|events| - 1] == earlier;
    InvStages(s);
    if s.stage.Waiting? {
      EventAdvances(s, e);
      forall outcome ensures t.outcome == Some(outcome) <==> SettledIn(start, events, outcome) {
        WaitingSettles(s, e, outcome);
      }
      InterruptionConcludes(s, e);
    } else if s.stage.Closed? {
      InvParts(s);
      StepKeeps(s, e);
      StaysClosed(s, e);
    } else {
      forall outcome ensures t.outcome == Some(outcome) <==> SettledIn(start, events, outcome) {
        LateAdvances(s, e, outcome);
      }
      LateAdvances(s, e, NotSaved(Interrupted));
    }
  }

  lemma InvStages(s: State)
    requires Inv(s)
    ensures s.outcome.Some? <==> s.stage.Closed?
  {
    hide Report, Concat, Sound, Saveable;
  }

  lemma InterruptionConcludes(s: State, e: Event)
    requires Inv(s) && s.stage.Waiting? && Enabled(s, e) && Advances(s, e, Apply(s, e))
    ensures !Apply(s, e).stage.Waiting? ==>
      (s.failure || Interrupts(s, e) <==> Apply(s, e).outcome == Some(NotSaved(Interrupted)))
  {
    hide Inv, Apply, Enabled, Concat, Length, Begins, Interrupts, IsDraftOf;
  }

  lemma StaysClosed(s: State, e: Event)
    requires Inv(s) && s.stage.Closed? && Enabled(s, e)
    ensures !Apply(s, e).stage.Waiting?
  {
    StepInv(s, e);
    InvStages(s);
    InvStages(Apply(s, e));
    InvParts(s);
    StepKeeps(s, e);
    hide Inv, Apply, Enabled;
  }

  lemma {:induction false} RunRemembers(start: State, events: seq<Event>)
    requires Inv(start) && start.stage.Waiting? && !start.failure && Legal(start, events)
    ensures Remembers(start, events)
    decreases |events|
  {
    hide Inv, Apply, Enabled, Remembers;
    if events == [] {
      NothingToRemember(start);
    } else {
      LastStep(start, events);
      var n := |events| - 1;
      assert events == events[..n] + [events[n]];
      RunInv(start, events[..n]);
      RunRemembers(start, events[..n]);
      StepRemembers(start, events[..n], events[n]);
    }
  }

  lemma NothingToRemember(start: State)
    requires Inv(start) && start.stage.Waiting? && !start.failure
    ensures Remembers(start, [])
  {
    InvInProgress(start);
  }

  /** Over every order of events the promise settles with an outcome exactly when an event settled it so: Interrupted
      after an error or a stop that threw, Nothing under half a second, TooLarge with no sound, a saved note or
      OutOfSpace by the store's answer, and Other when the resolver threw, or hashing or storing failed. */
  lemma OutcomeHasItsCause(
    identity: Identity, contentType: string, startedAt: real, events: seq<Event>, outcome: Outcome)
    requires Legal(Started(identity, contentType, startedAt), events)
    ensures After(Started(identity, contentType, startedAt), events).outcome == Some(outcome) <==>
      SettledIn(Started(identity, contentType, startedAt), events, outcome)
  {
    hide Legal, After, SettledIn, InterruptedIn;
    StartedInv(identity, contentType, startedAt);
    RunRemembers(Started(identity, contentType, startedAt), events);
  }

  /** A recording that was interrupted before its completion is never saved: whatever follows, nothing is stored and the
      only outcome is Interrupted; and no other recording ends so. */
  lemma InterruptedIsNeverSaved(identity: Identity, contentType: string, startedAt: real, events: seq<Event>)
    requires Legal(Started(identity, contentType, startedAt), events)
    ensures var start := Started(identity, contentType, startedAt);
      var s := After(start, events);
      && (InterruptedIn(start, events) ==>
            s.saved == [] && (s.outcome == None || s.outcome == Some(NotSaved(Interrupted))))
      && (s.outcome.Some? ==> (s.outcome == Some(NotSaved(Interrupted)) <==> InterruptedIn(start, events)))
  {
    hide Legal, After, InterruptedIn, SettledIn;
    StartedInv(identity, contentType, startedAt);
    var start := Started(identity, contentType, startedAt);
    RunRemembers(start, events);
    RunInv(start, events);
    InvSaved(After(start, events));
  }

  lemma InvSaved(s: State)
    requires Inv(s)
    ensures s.saved == if s.outcome.Some? && s.outcome.value.Kept? then [s.outcome.value.draft] else []
    ensures s.outcome.Some? <==> s.stage.Closed?
  {
    hide Report, Concat, Sound, Saveable;
  }

  // ------------------------------------------------------------------- report

  /** The last update tells what the promise settled with. */
  predicate Announces(update: Update, outcome: Outcome, cause: Option<Cause>, limitKind: LimitKind) {
    match outcome
    case Nothing => update.Discarded? && update.durationMs < 500
    case Kept(draft) => cause.Some? && update == NoteSaved(draft.meta.durationMs, cause.value, limitKind)
    case NotSaved(reason) => update.NoteFailed? && update.reason == reason
  }

  predicate Announced(t: State) {
    t.outcome.Some? ==>
      |t.updates| > 0 && Announces(t.updates[|t.updates| - 1], t.outcome.value, t.finished, t.limitKind)
  }

  lemma HaltedAnnounced(s: State, m: Moment)
    requires s.outcome.None?
    ensures Announced(Completed(s, m)) && Announced(Halted(s, m))
  {
    CompletedAnnounced(s, m);
    CompletedAnnounced(s.(armed := true, failure := true), m);
    hide Completed;
  }

  lemma CompletedAnnounced(s: State, m: Moment)
    requires s.outcome.None?
    ensures Announced(Completed(s, m))
  {
    hide Concat, Capped, Elapsed, Built;
  }

  lemma FinalizedAnnounced(s: State, cause: Cause, m: Moment)
    requires s.outcome.None?
    ensures Announced(Finalized(s, cause, m))
    ensures s.finished.None? ==>
      var t := Finalized(s, cause, m);
      |t.updates| > |s.updates| && t.updates[|s.updates|].Finalizing?
      && (t.updates[|s.updates|].limitReached <==> cause == Limit)
  {
    var update := Finalizing(Capped(Elapsed(s.startedAt, m.asked)), cause.Limit?);
    HaltedAnnounced(s.(finished := Some(cause), updates := s.updates + [update]), m);
    HaltedGrows(s.(finished := Some(cause), updates := s.updates + [update]), m);
    hide Halted, Capped, Elapsed;
  }

  lemma HaltedGrows(s: State, m: Moment)
    ensures s.updates <= Halted(s, m).updates
  {
    hide Concat, Capped, Elapsed, Built;
  }

  /** Whenever the promise settles, the last update says with what, and for a saved note its length, the first cause and
      the limit that was reached. */
  lemma SettlingIsAnnounced(s: State, e: Event)
    requires s.outcome.None? && Enabled(s, e)
    ensures Announced(Apply(s, e))
  {
    hide Announced, Finalized, Completed, Digested, Answered;
    NoOutcome(s);
    match e {
      case Data(chunk, m) =>
        FinalizedAnnounced(s.(limitKind := SizeLimit), Limit, m);
        NoOutcome(Apply(s, e));
      case Tick(now, m) =>
        var update := Recording(Capped(Elapsed(s.startedAt, now)), Elapsed(s.startedAt, now) >= MAXIMUM_MS as real);
        FinalizedAnnounced(s.(updates := s.updates + [update]), Limit, m);
        NoOutcome(Apply(s, e));
      case TrackEnded(m) => FinalizedAnnounced(s, Device, m);
      case Fault(m) => FinalizedAnnounced(s.(failure := true), Device, m);
      case Stop(cause, m) => FinalizedAnnounced(s, cause, m);
      case Inactivated => NoOutcome(Apply(s, e));
      case StopEvent(m) =>
        HaltedAnnounced(s.(stopPending := false), m);
        NoOutcome(Apply(s, e));
      case DigestReady(sha256, now) => DigestedAnnounced(s, sha256, now);
      case StoreReady(result, now) => AnsweredAnnounced(s, result, now);
    }
  }

  /** The timer reports the time, at most sixty seconds, and whether they are over. */
  lemma TickReports(s: State, now: real, m: Moment)
    requires Enabled(s, Tick(now, m))
    ensures var elapsed, t := now - s.startedAt, Apply(s, Tick(now, m));
      |t.updates| > |s.updates| && t.updates[|s.updates|] ==
        if elapsed >= 60_000.0 then Recording(60_000.0, true)
        else Recording(if elapsed > 0.0 then elapsed else 0.0, false)
  {
    var update := Recording(Capped(Elapsed(s.startedAt, now)), Elapsed(s.startedAt, now) >= MAXIMUM_MS as real);
    FinalizedGrows(s.(updates := s.updates + [update]), Limit, m);
    hide Finalized;
  }

  lemma FinalizedGrows(s: State, cause: Cause, m: Moment)
    ensures s.updates <= Finalized(s, cause, m).updates
  {
    var update := Finalizing(Capped(Elapsed(s.startedAt, m.asked)), cause.Limit?);
    HaltedGrows(s.(finished := Some(cause), updates := s.updates + [update]), m);
    hide Halted, Capped, Elapsed;
  }

  lemma NoOutcome(s: State)
    ensures s.outcome.None? ==> Announced(s)
  {
  }

  lemma DigestedAnnounced(s: State, sha256: Option<string>, now: real)
    requires s.outcome.None? && s.stage.Digesting?
    ensures Announced(Digested(s, sha256, now))
  {
    hide Capped, Elapsed, Saveable, Sealed;
  }

  lemma AnsweredAnnounced(s: State, result: Storing, now: real)
    requires s.outcome.None? && s.stage.Saving? && s.finished.Some?
    ensures Announced(Answered(s, result, now))
  {
    hide Capped, Elapsed;
  }

  /** The digest seals the draft as it was built and hands it to the store. */
  lemma DigestSeals(s: State, sha256: string, now: real)
    requires s.stage.Digesting?
    ensures var sealed := s.stage.draft.(meta := s.stage.draft.meta.(sha256 := sha256));
      Saveable(sealed) ==> Apply(s, DigestReady(Some(sha256), now)).stage == Saving(sealed)
  {
    hide Saveable;
  }
}
