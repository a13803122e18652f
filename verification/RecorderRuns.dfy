/** What every order of browser events keeps: one outcome, one saved note, bounded sizes, and an orderly report. */
module RecorderRuns {
  import opened Options
  import opened AudioDrafts
  import opened Recorder

  datatype Event =
    | Data(chunk: Bytes, m: Moment)
    | Tick(now: real, m: Moment)
    | TrackEnded(m: Moment)
    | Fault(m: Moment)
    | Stop(cause: Cause, m: Moment)
    | Inactivated
    | StopEvent(m: Moment)
    | DigestReady(sha256: Option<string>, now: real)
    | StoreReady(result: Storing, now: real)

  /** The browser fires stop once after the recorder became inactive; timer and listeners are silent after cleanup. */
  predicate Enabled(s: State, e: Event) {
    match e
    case Tick(_, _) => s.timer
    case TrackEnded(_) => s.listening
    case Inactivated => s.live
    case StopEvent(_) => s.stopPending
    case DigestReady(_, _) => s.stage.Digesting?
    case StoreReady(_, _) => s.stage.Saving? && s.finished.Some?
    case _ => true
  }

  function Apply(s: State, e: Event): State
    requires Enabled(s, e)
  {
    match e
    case Data(chunk, m) => Fed(s, chunk, m)
    case Tick(now, m) => Ticked(s, now, m)
    case TrackEnded(m) => Finalized(s, Device, m)
    case Fault(m) => Faulted(s, m)
    case Stop(cause, m) => Finalized(s, cause, m)
    case Inactivated => s.(live := false, stopPending := true)
    case StopEvent(m) => Stopped(s, m)
    case DigestReady(sha256, now) => Digested(s, sha256, now)
    case StoreReady(result, now) => Answered(s, result, now)
  }

  predicate Legal(s: State, events: seq<Event>)
    decreases |events|
  {
    events == [] || (Enabled(s, events[0]) && Legal(Apply(s, events[0]), events[1..]))
  }

  function After(s: State, events: seq<Event>): State
    requires Legal(s, events)
    decreases |events|
  {
    if events == [] then s else After(Apply(s, events[0]), events[1..])
  }

  // --------------------------------------------------------------- the report

  /** What a listener has been told so far. */
  datatype Phase = Silent | Running | Ending | Ended | EndedBadly | EndedBadlyTwice | Disorder

  /** Recording updates, one finalizing update, maybe recording updates, one last word; only a failure is ever
      repeated, and only once. */
  function Heard(phase: Phase, update: Update): Phase {
    match update
    case Recording(_, _) =>
      if phase.Silent? || phase.Running? then Running else if phase.Ending? then Ending else Disorder
    case Finalizing(_, _) => if phase.Running? then Ending else Disorder
    case NoteFailed(_, _) =>
      if phase.Ending? then EndedBadly else if phase.EndedBadly? then EndedBadlyTwice else Disorder
    case _ => if phase.Ending? then Ended else Disorder
  }

  function Report(updates: seq<Update>): Phase {
    if updates == [] then Silent else Heard(Report(updates[..|updates| - 1]), updates[|updates| - 1])
  }

  lemma Reported(updates: seq<Update>, update: Update)
    ensures Report(updates + [update]) == Heard(Report(updates), update)
  {
    assert (updates + [update])[..|updates|] == updates;
  }

  // --------------------------------------------------------------- invariants

  /** The flags: cleanup and completion start together, and an open finalization always has its stop event coming. */
  predicate Control(s: State) {
    && (s.timer <==> s.stage.Waiting?) && s.listening == s.timer
    && (s.finished.None? ==> s.stage.Waiting? && !s.armed)
    && (s.finished.Some? && s.stage.Waiting? ==> s.armed && s.stopPending)
    && !(s.live && s.stopPending)
    && (s.armed && !s.stage.Waiting? && (s.live || s.stopPending) ==> s.failure && s.stage.Closed?)
  }

  predicate Told(s: State) {
    match Report(s.updates)
    case Running => s.finished.None?
    case Ending => s.finished.Some? && !s.stage.Closed?
    case Ended =>
      && s.stage.Closed? && s.outcome.Some? && !s.outcome.value.NotSaved?
      && !(s.armed && (s.live || s.stopPending))
    case EndedBadly => s.stage.Closed? && s.outcome.Some? && s.outcome.value.NotSaved?
    case EndedBadlyTwice =>
      && s.stage.Closed? && s.outcome.Some? && s.outcome.value.NotSaved?
      && !(s.armed && (s.live || s.stopPending))
    case _ => false
  }

  predicate Bounded(s: State) {
    && s.sizeBytes == |Concat(s.chunks)| <= MAXIMUM_BYTES
    && (forall chunk | chunk in s.chunks :: chunk != [])
  }

  /** The draft carries the identity and the content type of its recording. */
  predicate Carries(s: State, draft: Draft) {
    && draft.meta.id == s.identity.id && draft.meta.responsibility == s.identity.responsibility
    && draft.meta.requirementKey == s.identity.requirementKey
    && draft.meta.disclosureVersion == s.identity.disclosureVersion
    && draft.meta.consentVersion == s.identity.consentVersion && draft.noteId == s.identity.noteId
    && draft.meta.contentType == s.contentType
  }

  /** A note under way is pending and holds an initial part of the accepted sound; its size and length are in
      bounds. */
  predicate Sound(s: State, draft: Draft) {
    && draft.state.PendingUpload? && Carries(s, draft)
    && draft.audio.Some? && draft.audio.value <= Concat(s.chunks)
    && draft.meta.sizeBytes == |draft.audio.value| && 0 < draft.meta.sizeBytes <= MAXIMUM_BYTES
    && MINIMUM_MS <= draft.meta.durationMs <= MAXIMUM_MS
  }

  predicate Accounted(s: State) {
    && (s.outcome.Some? <==> s.stage.Closed?)
    && (s.saved == if s.outcome.Some? && s.outcome.value.Kept? then [s.outcome.value.draft] else [])
    && (forall draft | draft in s.saved :: Saveable(draft) && Sound(s, draft))
    && (s.stage.Digesting? ==> Sound(s, s.stage.draft))
    && (s.stage.Saving? ==> Saveable(s.stage.draft) && Sound(s, s.stage.draft))
  }

  predicate Inv(s: State) {
    Control(s) && Told(s) && Bounded(s) && Accounted(s)
  }

  // -------------------------------------------------------------------- steps

  lemma CappedRange(startedAt: real, now: real)
    ensures 0.0 <= Capped(Elapsed(startedAt, now)) <= MAXIMUM_MS as real
    ensures 0 <= Capped(Elapsed(startedAt, now)).Floor <= MAXIMUM_MS
  {
  }

  lemma ConcatGrows(chunks: seq<Bytes>, chunk: Bytes)
    ensures Concat(chunks + [chunk]) == Concat(chunks) + chunk
  {
    assert (chunks + [chunk])[..|chunks|] == chunks;
  }

  /** Where a completion may begin: nothing is under way, or an earlier one failed because stop() threw. */
  predicate Completable(s: State) {
    && s.finished.Some? && Bounded(s) && Accounted(s) && Told(s)
    && (s.stage.Waiting? || (s.stage.Closed? && s.failure && Report(s.updates).EndedBadly?))
    && (s.armed && (s.live || s.stopPending) ==> s.failure && s.stage.Waiting?)
    && !(s.live && s.stopPending)
  }

  lemma CompletedControl(s: State, m: Moment)
    requires Completable(s)
    ensures Control(Completed(s, m))
  {
    hide Accounted, Told, Bounded, Concat, Capped, Elapsed;
  }

  lemma CompletedTold(s: State, m: Moment)
    requires Completable(s)
    ensures Told(Completed(s, m))
  {
    hide Bounded, Concat, Capped, Elapsed, Report;
    var t := Completed(s, m);
    if t.updates != s.updates {
      Reported(s.updates, t.updates[|s.updates|]);
    }
  }

  lemma CompletedKept(s: State, m: Moment)
    requires Completable(s)
    ensures Bounded(Completed(s, m)) && Accounted(Completed(s, m))
  {
    hide Told, Report, Concat, Capped, Elapsed;
    CappedRange(s.startedAt, m.closed);
  }

  lemma CompletedInv(s: State, m: Moment)
    requires Completable(s)
    ensures Inv(Completed(s, m))
  {
    hide Control, Told, Bounded, Accounted, Completable, Completed;
    CompletedControl(s, m);
    CompletedTold(s, m);
    CompletedKept(s, m);
  }

  lemma HaltedInv(s: State, m: Moment)
    requires Told(s) && Report(s.updates).Ending? && s.stage.Waiting? && !s.armed && s.timer && s.listening
    requires Bounded(s) && Accounted(s) && !(s.live && s.stopPending)
    ensures Inv(Halted(s, m))
  {
    hide Completed, Concat, Bounded, Report;
    if !s.live {
      CompletedInv(s, m);
    } else if m.stopThrows {
      var t := s.(armed := true, failure := true);
      assert Bounded(t) by {
        assert t.chunks == s.chunks && t.sizeBytes == s.sizeBytes;
        Unchanged(s, t);
      }
      CompletedInv(t, m);
    } else {
      Unchanged(s, Halted(s, m));
    }
  }

  lemma Unchanged(s: State, t: State)
    requires s.chunks == t.chunks && s.sizeBytes == t.sizeBytes && s.identity == t.identity
    requires s.contentType == t.contentType
    ensures Bounded(s) == Bounded(t)
    ensures forall draft :: Sound(s, draft) == Sound(t, draft)
  {
  }

  lemma FinalizedInv(s: State, cause: Cause, m: Moment)
    requires Inv(s)
    ensures Inv(Finalized(s, cause, m))
  {
    hide Halted, Concat, Capped, Elapsed, Report;
    if s.finished.None? {
      var update := Finalizing(Capped(Elapsed(s.startedAt, m.asked)), cause.Limit?);
      var f := s.(finished := Some(cause), updates := s.updates + [update]);
      Reported(s.updates, update);
      HaltedInv(f, m);
    }
  }

  lemma FedInv(s: State, chunk: Bytes, m: Moment)
    requires Inv(s)
    ensures Inv(Fed(s, chunk, m))
  {
    hide Finalized, Control, Report, Concat;
    if chunk != [] && s.sizeBytes + |chunk| > MAXIMUM_BYTES {
      var t := s.(limitKind := SizeLimit);
      LimitKindIsFree(s, SizeLimit);
      FinalizedInv(t, Limit, m);
    } else if chunk != [] {
      ConcatGrows(s.chunks, chunk);
      var t := Fed(s, chunk, m);
      assert forall draft :: Sound(s, draft) ==> Sound(t, draft);
      ControlIgnores(s, t);
    }
  }

  lemma ControlIgnores(s: State, t: State)
    requires Control(s)
    requires t == s.(chunks := t.chunks, sizeBytes := t.sizeBytes, limitKind := t.limitKind)
    ensures Control(t)
  {
  }

  lemma LimitKindIsFree(s: State, kind: LimitKind)
    requires Inv(s)
    ensures Inv(s.(limitKind := kind))
  {
    hide Report, Concat;
    Unchanged(s, s.(limitKind := kind));
  }

  lemma TickedInv(s: State, now: real, m: Moment)
    requires Inv(s) && s.timer
    ensures Inv(Ticked(s, now, m))
  {
    hide Finalized, Concat, Report, Capped, Elapsed;
    var update := Recording(Capped(Elapsed(s.startedAt, now)), Elapsed(s.startedAt, now) >= MAXIMUM_MS as real);
    var t := s.(updates := s.updates + [update]);
    Reported(s.updates, update);
    Unchanged(s, t);
    assert Inv(t);
    FinalizedInv(t, Limit, m);
  }

  lemma FaultedInv(s: State, m: Moment)
    requires Inv(s)
    ensures Inv(Faulted(s, m))
  {
    hide Finalized, Concat, Report;
    var t := s.(failure := true);
    Unchanged(s, t);
    FinalizedInv(t, Device, m);
  }

  lemma StoppedInv(s: State, m: Moment)
    requires Inv(s) && s.stopPending
    ensures Inv(Stopped(s, m))
  {
    hide Completed, Concat, Report;
    var t := s.(stopPending := false);
    Unchanged(s, t);
    if s.armed {
      CompletedInv(t, m);
    }
  }

  lemma FailingInv(s: State, reason: Reason, now: real)
    requires Inv(s) && (s.stage.Digesting? || s.stage.Saving?)
    ensures Inv(Failing(s, reason, now))
  {
    hide Concat, Report, Capped, Elapsed;
    Reported(s.updates, NoteFailed(Capped(Elapsed(s.startedAt, now)), reason));
    Unchanged(s, Failing(s, reason, now));
  }

  lemma DigestedInv(s: State, sha256: Option<string>, now: real)
    requires Inv(s) && s.stage.Digesting?
    ensures Inv(Digested(s, sha256, now))
  {
    hide Concat, Report, Failing, ValidDraft;
    if Digested(s, sha256, now) == Failing(s, Other, now) {
      FailingInv(s, Other, now);
    } else {
      Unchanged(s, Digested(s, sha256, now));
    }
  }

  lemma AnsweredInv(s: State, result: Storing, now: real)
    requires Inv(s) && s.stage.Saving? && s.finished.Some?
    ensures Inv(Answered(s, result, now))
  {
    hide Concat, Report, Failing, Saveable;
    match result {
      case Committed =>
        Reported(s.updates, NoteSaved(s.stage.draft.meta.durationMs, s.finished.value, s.limitKind));
        Unchanged(s, Answered(s, result, now));
      case QuotaExceeded => FailingInv(s, OutOfSpace, now);
      case Aborted => FailingInv(s, Other, now);
    }
  }

  lemma InactivatedInv(s: State)
    requires Inv(s) && s.live
    ensures Inv(s.(live := false, stopPending := true))
  {
    hide Concat, Report;
    Unchanged(s, s.(live := false, stopPending := true));
  }

  lemma StepInv(s: State, e: Event)
    requires Inv(s) && Enabled(s, e)
    ensures Inv(Apply(s, e))
  {
    hide Inv, Fed, Ticked, Finalized, Faulted, Stopped, Digested, Answered;
    match e {
      case Data(chunk, m) => FedInv(s, chunk, m);
      case Tick(now, m) => TickedInv(s, now, m);
      case TrackEnded(m) => FinalizedInv(s, Device, m);
      case Fault(m) => FaultedInv(s, m);
      case Stop(cause, m) => FinalizedInv(s, cause, m);
      case Inactivated => InactivatedInv(s);
      case StopEvent(m) => StoppedInv(s, m);
      case DigestReady(sha256, now) => DigestedInv(s, sha256, now);
      case StoreReady(result, now) => AnsweredInv(s, result, now);
    }
  }

  lemma {:induction false} RunInv(s: State, events: seq<Event>)
    requires Inv(s) && Legal(s, events)
    ensures Inv(After(s, events))
    decreases |events|
  {
    hide Inv, Apply, Enabled;
    if events != [] {
      StepInv(s, events[0]);
      RunInv(Apply(s, events[0]), events[1..]);
    }
  }

  lemma StartedInv(identity: Identity, contentType: string, startedAt: real)
    ensures Inv(Started(identity, contentType, startedAt))
  {
    Reported([], Recording(0.0, false));
  }

  // ----------------------------------------------------------------- theorems

  /** Over any order of events: at most one note is saved, it is what every stop caller gets, it may enter the store
      and comes back from it unchanged; its sound is an initial part of what was accepted, between half a second and a
      minute long; the accepted bytes never exceed the limit; and listeners hear an orderly report. */
  lemma RecorderSafety(identity: Identity, contentType: string, startedAt: real, events: seq<Event>, rows: Rows)
    requires Legal(Started(identity, contentType, startedAt), events)
    ensures var s := After(Started(identity, contentType, startedAt), events);
      && s.sizeBytes == |Concat(s.chunks)| <= 5 * 1024 * 1024
      && !Report(s.updates).Disorder?
      && |s.saved| <= 1
      && (s.saved == [] <==> !(s.outcome.Some? && s.outcome.value.Kept?))
      && (forall draft | draft in s.saved ::
            && s.outcome == Some(Kept(draft)) && Saveable(draft)
            && 500 <= draft.meta.durationMs <= 60_000
            && draft.audio.Some? && draft.audio.value <= Concat(s.chunks) && draft.meta.sizeBytes == |draft.audio.value|
            && draft.state.PendingUpload? && draft.noteId == identity.noteId
            && draft.meta.id == identity.id && draft.meta.responsibility == identity.responsibility
            && draft.meta.requirementKey == identity.requirementKey && draft.meta.contentType == contentType
            && draft.meta.disclosureVersion == identity.disclosureVersion
            && draft.meta.consentVersion == identity.consentVersion
            && Found(rows[draft.meta.id := Stored(draft)], draft.meta.id, draft.meta.responsibility) == Some(draft))
  {
    hide Legal, After, Concat, Report, Control, Saveable, Found, Stored;
    StartedInv(identity, contentType, startedAt);
    OneOutcome(Started(identity, contentType, startedAt), events);
    hide Started;
    RunInv(Started(identity, contentType, startedAt), events);
    var s := After(Started(identity, contentType, startedAt), events);
    forall draft | draft in s.saved
      ensures Found(rows[draft.meta.id := Stored(draft)], draft.meta.id, draft.meta.responsibility) == Some(draft)
    {
      SaveThenLoad(rows, draft);
    }
  }

  predicate AddsNoRecording(before: seq<Update>, after: seq<Update>) {
    before <= after && forall i | |before| <= i < |after| :: !after[i].Recording?
  }

  /** What the later state t may not undo. */
  predicate Keeps(s: State, t: State) {
    && t.identity == s.identity && t.contentType == s.contentType
    && (s.outcome.Some? ==> t.outcome == s.outcome && t.saved == s.saved)
    && (s.finished.Some? ==> t.finished == s.finished)
    && (!s.timer ==> !t.timer && AddsNoRecording(s.updates, t.updates))
  }

  lemma FailingKeeps(s: State, reason: Reason, now: real)
    ensures Keeps(s, Failing(s.(timer := false, listening := false), reason, now))
  {
    hide Capped, Elapsed;
  }

  lemma CompletedKeeps(s: State, m: Moment)
    ensures Keeps(s, Completed(s, m))
  {
    hide Failing, Built, Concat, Capped, Elapsed;
    FailingKeeps(s, Interrupted, m.failed);
    FailingKeeps(s, TooLarge, m.failed);
    FailingKeeps(s, Other, m.failed);
  }

  lemma FinalizedKeeps(s: State, cause: Cause, m: Moment)
    requires Control(s)
    ensures Keeps(s, Finalized(s, cause, m))
  {
    hide Completed, Capped, Elapsed;
    if s.finished.None? {
      var update := Finalizing(Capped(Elapsed(s.startedAt, m.asked)), cause.Limit?);
      var f := s.(finished := Some(cause), updates := s.updates + [update]);
      CompletedKeeps(f, m);
      CompletedKeeps(f.(armed := true, failure := true), m);
    }
  }

  lemma TickedKeeps(s: State, now: real, m: Moment)
    requires Control(s) && s.timer
    ensures Keeps(s, Ticked(s, now, m))
  {
    hide Finalized, Capped, Elapsed;
    var update := Recording(Capped(Elapsed(s.startedAt, now)), Elapsed(s.startedAt, now) >= MAXIMUM_MS as real);
    FinalizedKeeps(s.(updates := s.updates + [update]), Limit, m);
  }

  lemma DigestedKeeps(s: State, sha256: Option<string>, now: real)
    requires Control(s) && s.stage.Digesting?
    ensures Keeps(s, Digested(s, sha256, now))
  {
    hide Failing, Sealed, Saveable;
    FailingKeeps(s, Other, now);
    assert s.(timer := false, listening := false) == s;
  }

  lemma AnsweredKeeps(s: State, result: Storing, now: real)
    requires Control(s) && s.stage.Saving? && s.finished.Some? && s.outcome.None?
    ensures Keeps(s, Answered(s, result, now))
  {
    hide Failing;
    FailingKeeps(s, Other, now);
    FailingKeeps(s, OutOfSpace, now);
    assert s.(timer := false, listening := false) == s;
  }

  /** Once the promise has settled, and once cleanup has run, no event changes that. */
  lemma StepKeeps(s: State, e: Event)
    requires Control(s) && (s.outcome.Some? ==> s.stage.Closed?) && Enabled(s, e)
    ensures Keeps(s, Apply(s, e))
  {
    hide Finalized, Completed, Ticked, Digested, Answered;
    match e {
      case Data(chunk, m) => FinalizedKeeps(s.(limitKind := SizeLimit), Limit, m);
      case Tick(now, m) => TickedKeeps(s, now, m);
      case TrackEnded(m) => FinalizedKeeps(s, Device, m);
      case Fault(m) => FinalizedKeeps(s.(failure := true), Device, m);
      case Stop(cause, m) => FinalizedKeeps(s, cause, m);
      case StopEvent(m) => CompletedKeeps(s.(stopPending := false), m);
      case Inactivated =>
      case DigestReady(sha256, now) => DigestedKeeps(s, sha256, now);
      case StoreReady(result, now) => AnsweredKeeps(s, result, now);
    }
  }

  /** All stop callers share one outcome, whenever they look, and nothing more is saved after it; the first stop cause
      is the one that counts; and after cleanup no recording update is ever sent. */
  lemma {:induction false} OneOutcome(s: State, events: seq<Event>)
    requires Inv(s) && Legal(s, events)
    ensures Keeps(s, After(s, events))
    decreases |events|
  {
    hide Inv, Keeps, Apply, Enabled;
    if events == [] {
      KeepsItself(s);
    } else {
      var t := Apply(s, events[0]);
      InvParts(s);
      StepInv(s, events[0]);
      StepKeeps(s, events[0]);
      OneOutcome(t, events[1..]);
      KeepsTransitively(s, t, After(t, events[1..]));
    }
  }

  lemma InvParts(s: State)
    requires Inv(s)
    ensures Control(s) && (s.outcome.Some? ==> s.stage.Closed?)
  {
  }

  lemma KeepsItself(s: State)
    ensures Keeps(s, s)
  {
  }

  lemma KeepsTransitively(s: State, t: State, u: State)
    requires Keeps(s, t) && Keeps(t, u)
    ensures Keeps(s, u)
  {
  }

  /** The size check of the completion can only see an empty recording: one that is too long never gets there. */
  lemma TooLargeMeansEmpty(s: State, m: Moment)
    requires Inv(s) && !s.failure && s.stage.Waiting? && Elapsed(s.startedAt, m.closed) >= MINIMUM_MS as real
    ensures Completed(s, m).outcome == Some(NotSaved(TooLarge)) <==> s.sizeBytes == 0
    ensures Completed(s, m).stage.Digesting? <==> s.sizeBytes > 0 && !m.resolution.Throws?
  {
    hide Report, Told, Control, Sound, Concat;
  }

  /** A finalization never hangs: from every reachable state there are browser answers that settle its promise. */
  lemma FinalizationCanSettle(s: State, m: Moment)
    requires Inv(s) && s.finished.Some?
    ensures exists events: seq<Event> :: Legal(s, events) && After(s, events).outcome.Some?
  {
    hide Report, Told, Bounded, Sound, Concat;
    if s.stage.Closed? {
      assert Legal(s, []) && After(s, []).outcome.Some?;
    } else if s.stage.Digesting? {
      OneStep(s, DigestReady(None, m.closed));
    } else if s.stage.Saving? {
      OneStep(s, StoreReady(Committed, m.closed));
    } else {
      var t := Apply(s, StopEvent(m));
      if t.stage.Closed? {
        OneStep(s, StopEvent(m));
      } else {
        assert [StopEvent(m), DigestReady(None, m.closed)][1..] == [DigestReady(None, m.closed)];
        OneStep(t, DigestReady(None, m.closed));
        assert Legal(s, [StopEvent(m), DigestReady(None, m.closed)]);
        assert After(s, [StopEvent(m), DigestReady(None, m.closed)]).outcome.Some?;
      }
    }
  }

  lemma OneStep(s: State, e: Event)
    requires Enabled(s, e)
    ensures Legal(s, [e]) && After(s, [e]) == Apply(s, e)
  {
    assert [e][1..] == [];
  }

  // ------------------------------------------------------------- valid drafts

  predicate ValidIdentity(identity: Identity) {
    && identity.id != "" && identity.responsibility != "" && identity.requirementKey != ""
    && identity.disclosureVersion != "" && identity.consentVersion != ""
    && Anchored(identity.target)
  }

  /** The resolver, when the event asks it, throws, declines or gives an anchored target. */
  predicate Resolves(m: Moment) {
    m.resolution.At? ==> Anchored(m.resolution.target)
  }

  predicate Benign(e: Event) {
    match e
    case Data(_, m) => Resolves(m)
    case Tick(_, m) => Resolves(m)
    case TrackEnded(m) => Resolves(m)
    case Fault(m) => Resolves(m)
    case Stop(_, m) => Resolves(m)
    case StopEvent(m) => Resolves(m)
    case _ => true
  }

  /** Everything that validity asks of the draft but its digest. */
  predicate Fit(draft: Draft) {
    ValidDraft(Sealed(draft, "digest")) && draft.audio.Some? && |draft.audio.value| == draft.meta.sizeBytes
  }

  predicate Proper(s: State) {
    ValidIdentity(s.identity) && (s.stage.Digesting? ==> Fit(s.stage.draft))
  }

  lemma CompletedProper(s: State, m: Moment)
    requires Proper(s) && Resolves(m)
    ensures Proper(Completed(s, m))
  {
    hide Concat;
    CappedRange(s.startedAt, m.closed);
  }

  lemma FinalizedProper(s: State, cause: Cause, m: Moment)
    requires Proper(s) && Resolves(m)
    ensures Proper(Finalized(s, cause, m))
  {
    hide Completed, Capped, Elapsed;
    if s.finished.None? {
      var update := Finalizing(Capped(Elapsed(s.startedAt, m.asked)), cause.Limit?);
      var f := s.(finished := Some(cause), updates := s.updates + [update]);
      CompletedProper(f, m);
      CompletedProper(f.(armed := true, failure := true), m);
    }
  }

  lemma FedProper(s: State, chunk: Bytes, m: Moment)
    requires Proper(s) && Resolves(m)
    ensures Proper(Fed(s, chunk, m))
  {
    hide Finalized, Fit, ValidIdentity;
    FinalizedProper(s.(limitKind := SizeLimit), Limit, m);
  }

  lemma TickedProper(s: State, now: real, m: Moment)
    requires Proper(s) && Resolves(m)
    ensures Proper(Ticked(s, now, m))
  {
    hide Finalized, Fit, ValidIdentity, Capped, Elapsed;
    var update := Recording(Capped(Elapsed(s.startedAt, now)), Elapsed(s.startedAt, now) >= MAXIMUM_MS as real);
    FinalizedProper(s.(updates := s.updates + [update]), Limit, m);
  }

  lemma StoppedProper(s: State, m: Moment)
    requires Proper(s) && Resolves(m)
    ensures Proper(Stopped(s, m))
  {
    hide Completed, Fit, ValidIdentity;
    CompletedProper(s.(stopPending := false), m);
  }

  lemma FaultedProper(s: State, m: Moment)
    requires Proper(s) && Resolves(m)
    ensures Proper(Faulted(s, m))
  {
    hide Finalized, Fit, ValidIdentity;
    FinalizedProper(s.(failure := true), Device, m);
  }

  lemma FailingProper(s: State, reason: Reason, now: real)
    requires ValidIdentity(s.identity)
    ensures Proper(Failing(s, reason, now))
  {
    hide Capped, Elapsed, ValidIdentity;
  }

  /** The later stages leave no draft waiting for its digest. */
  lemma DigestedProper(s: State, sha256: Option<string>, now: real)
    requires Proper(s) && s.stage.Digesting?
    ensures Proper(Digested(s, sha256, now))
  {
    hide Failing, Sealed, Saveable, ValidIdentity, Fit;
    FailingProper(s, Other, now);
  }

  lemma AnsweredProper(s: State, result: Storing, now: real)
    requires Proper(s) && s.stage.Saving? && s.finished.Some?
    ensures Proper(Answered(s, result, now))
  {
    hide Failing, ValidIdentity, Fit;
    FailingProper(s, OutOfSpace, now);
    FailingProper(s, Other, now);
  }

  lemma InactivatedProper(s: State)
    requires Proper(s)
    ensures Proper(s.(live := false, stopPending := true))
  {
    hide ValidIdentity, Fit;
  }

  lemma StepProper(s: State, e: Event)
    requires Proper(s) && Enabled(s, e) && Benign(e)
    ensures Proper(Apply(s, e))
  {
    hide Proper, Finalized, Fed, Ticked, Stopped, Faulted, Digested, Answered;
    match e {
      case Data(chunk, m) => FedProper(s, chunk, m);
      case Tick(now, m) => TickedProper(s, now, m);
      case TrackEnded(m) => FinalizedProper(s, Device, m);
      case Fault(m) => FaultedProper(s, m);
      case Stop(cause, m) => FinalizedProper(s, cause, m);
      case StopEvent(m) => StoppedProper(s, m);
      case Inactivated => InactivatedProper(s);
      case DigestReady(sha256, now) => DigestedProper(s, sha256, now);
      case StoreReady(result, now) => AnsweredProper(s, result, now);
    }
  }

  lemma {:induction false} RunProper(s: State, events: seq<Event>)
    requires Proper(s) && Legal(s, events) && forall e | e in events :: Benign(e)
    ensures Proper(After(s, events))
    decreases |events|
  {
    hide Proper, Apply, Enabled, Benign;
    if events != [] {
      assert events[0] in events;
      StepProper(s, events[0]);
      RunProper(Apply(s, events[0]), events[1..]);
    }
  }

  /** With a valid identity and anchored targets the store never refuses a draft: every digest leads to a save. */
  lemma EveryDraftIsValid(identity: Identity, contentType: string, startedAt: real, events: seq<Event>,
      sha256: string, now: real)
    requires ValidIdentity(identity) && sha256 != ""
    requires Legal(Started(identity, contentType, startedAt), events) && forall e | e in events :: Benign(e)
    ensures var s := After(Started(identity, contentType, startedAt), events);
      s.stage.Digesting? ==> Digested(s, Some(sha256), now).stage.Saving?
  {
    hide Legal, After;
    RunProper(Started(identity, contentType, startedAt), events);
  }

  lemma {:induction false} LastStep(s: State, events: seq<Event>)
    requires events != [] && Legal(s, events)
    ensures var n := |events| - 1;
      && Legal(s, events[..n]) && Enabled(After(s, events[..n]), events[n])
      && After(s, events) == Apply(After(s, events[..n]), events[n])
    decreases |events|
  {
    hide Apply, Enabled;
    var n := |events| - 1;
    if n > 0 {
      LastStep(Apply(s, events[0]), events[1..]);
      assert events[1..][..n - 1] == events[..n][1..];
    } else {
      assert events[..n] == [];
      assert events[1..] == [];
    }
  }
}
