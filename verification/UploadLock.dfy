/** What the per-note lock adds: one body for every create request, a photo anchor that never moves, and final states
    that stay final. */
module UploadLock {
  import opened Options
  import opened AudioDrafts
  import opened UploadProtocol
  import opened UploadSafety

  predicate Open(state: DraftState) {
    state.PendingUpload? || state.Failed?
  }

  predicate NeedsMedia(target: Target) {
    target.Photo? && !Truthy(target.mediaId)
  }

  /** While the note has a row, the one run works on the row's own target and an open row, and nothing was sent before
      the target was complete. */
  predicate Working(row: Record, await: Await, sent: bool) {
    match await
    case Loading(_) => true
    case ResolvingPhoto(draft) =>
      Open(row.state) && draft.state == row.state && draft.target == row.target && NeedsMedia(row.target)
    case PersistingTarget(draft) =>
      && Open(row.state) && draft.state == row.state && NeedsMedia(row.target) && !sent
      && draft.target.Photo? && Truthy(draft.target.mediaId)
      && draft.target == row.target.(mediaId := draft.target.mediaId)
    case _ => Open(row.state) && await.draft.target == row.target && (await.Creating? ==> !NeedsMedia(row.target))
  }

  predicate LockInv(s: System) {
    && Inv(s) && s.locks
    && (forall a, b | a in s.runs && b in s.runs :: a == b)
    && (s.row.Some? <==> !s.discarded)
    && (s.row.Some? ==>
          && (s.row.value.audioBytes.None? ==> s.row.value.state.Received?)
          && (forall body | body in s.creates :: BodyIs(s.row.value, body))
          && (forall tab | tab in s.runs :: Working(s.row.value, s.runs[tab], s.creates != {})))
  }

  /** The body that the row determines once its target is complete. */
  predicate BodyIs(row: Record, body: Body) {
    !NeedsMedia(row.target) && body == BodyOf(Draft(row.meta, row.target, row.state, row.audioBytes, row.noteId))
  }

  lemma StartLockInv(original: Draft)
    requires Fresh(original)
    ensures LockInv(Start(original, true))
  {
    StartInv(original, true);
  }

  /** An open row under the lock is read back as it stands. */
  lemma RowReadable(s: System)
    requires LockInv(s) && s.row.Some?
    ensures RowRead(s).Some? && RowRead(s).value.meta == s.row.value.meta
      && RowRead(s).value.target == s.row.value.target
    ensures RowRead(s).value.state == s.row.value.state && RowRead(s).value.noteId == s.row.value.noteId
    ensures Open(s.row.value.state) ==> RowRead(s).value.audio == s.row.value.audioBytes
  {
  }

  /** Moving the only run on keeps the lock invariant when the next await works on the row. */
  lemma ResumeLock(s: System, tab: Tab, next: Option<Await>)
    requires LockInv(s) && tab in s.runs && Inv(Resume(s, tab, next))
    requires next.Some? && s.row.Some? ==> Working(s.row.value, next.value, s.creates != {})
    requires next.Some? && s.row.Some? && next.value.Creating? ==> next.value.draft.meta == s.row.value.meta
    ensures LockInv(Resume(s, tab, next))
  {
    hide Inv, Working, Resume;
    ResumeFrame(s, tab, next);
    if next.Some? && s.row.Some? {
      StillWorking(s.row.value, next.value, s.creates != {});
    }
  }

  /** Having sent a create request is only forbidden before the target is complete. */
  lemma StillWorking(row: Record, await: Await, sent: bool)
    requires Working(row, await, sent)
    ensures await.Creating? ==> Working(row, await, true) && await.draft.target == row.target && !NeedsMedia(row.target)
    ensures !await.Creating? ==> Working(row, await, sent)
  {
  }

  lemma LoadedLock(s: System, tab: Tab, ok: bool)
    requires LockInv(s) && Enabled(s, Loaded(tab, ok)) && Inv(Apply(s, Loaded(tab, ok)))
    ensures LockInv(Apply(s, Loaded(tab, ok)))
  {
    hide Inv, Restore, RowRead, BodyIs;
    var await := s.runs[tab];
    var latest := if RowRead(s).Some? then RowRead(s).value else DraftOf(await);
    if s.row.Some? { RowReadable(s); }
    if !ok {
      ResumeLock(s, tab, None);
    } else if await.Loading? {
      ResumeLock(s, tab, AfterLoad(latest));
    } else {
      ResumeLock(s, tab, Some(AfterRecovery(latest, await.failure)));
    }
  }

  lemma NothingSentYet(s: System)
    requires LockInv(s) && s.row.Some? && NeedsMedia(s.row.value.target)
    ensures s.creates == {}
  {
    forall body | body in s.creates ensures false { }
  }

  lemma PhotoLock(s: System, tab: Tab, ok: bool)
    requires LockInv(s) && Enabled(s, PhotoRead(tab, ok)) && Inv(Apply(s, PhotoRead(tab, ok)))
    ensures LockInv(Apply(s, PhotoRead(tab, ok)))
  {
    hide BodyIs, Resolved;
    var photo := Resolved(s.runs[tab].draft, PhotosSeen(s, ok));
    ResolvedIsTruthy(s.runs[tab].draft, PhotosSeen(s, ok));
    if s.row.Some? { NothingSentYet(s); }
    ResumeLock(s, tab, AfterPhoto(s.runs[tab].draft, photo));
  }

  lemma AnsweredLock(s: System, tab: Tab, reply: Reply)
    requires LockInv(s) && Enabled(s, Answered(tab, reply)) && Inv(Apply(s, Answered(tab, reply)))
    ensures LockInv(Apply(s, Answered(tab, reply)))
  {
    hide Inv, BodyIs, Truthful;
    ResumeLock(s, tab, AfterReply(s, s.runs[tab], reply));
  }

  /** A committed write leaves the row on the same complete target, or completes it before anything was sent. */
  lemma WriteLock(s: System, tab: Tab)
    requires LockInv(s) && tab in s.runs && AwaitsStore(s.runs[tab]) && s.row.Some?
    ensures var row := Merge(s.row.value, Written(s.runs[tab]));
      && WriteRow(s, Written(s.runs[tab])).row == Some(row)
      && row.meta == s.row.value.meta
      && (s.runs[tab].PersistingTarget? ==>
        s.creates == {} && !NeedsMedia(row.target) && row.target == s.runs[tab].draft.target)
      && (!s.runs[tab].PersistingTarget? ==> row.target == s.row.value.target)
      && (Open(row.state) || row.state == Written(s.runs[tab]).state)
      && (row.audioBytes.None? ==> row.state.Received?)
  {
  }

  lemma CommittedLock(s: System, tab: Tab, ok: bool)
    requires LockInv(s) && Enabled(s, Committed(tab, ok)) && Inv(Apply(s, Committed(tab, ok)))
    ensures LockInv(Apply(s, Committed(tab, ok)))
  {
    hide Inv, WriteRow, RunOk, RowOk, DraftOk, ServerOk;
    var written := Written(s.runs[tab]);
    WriteFrame(s, written);
    if ok && s.row.Some? {
      WriteLock(s, tab);
      ResumeFrame(WriteRow(s, written), tab, AfterWrite(s.runs[tab], ok));
    } else {
      ResumeLock(s, tab, AfterWrite(s.runs[tab], ok));
    }
  }

  lemma WriteFrame(s: System, draft: Draft)
    ensures WriteRow(s, draft) == s.(row := WriteRow(s, draft).row)
    ensures s.row.None? ==> WriteRow(s, draft) == s
  {
  }

  lemma StepLock(s: System, e: Event)
    requires LockInv(s) && Enabled(s, e)
    ensures LockInv(Apply(s, e))
  {
    hide Inv, Working, BodyIs, Resume, WriteRow, RowRead, AfterLoad, AfterPhoto, Resolved, AfterReply, AfterWrite,
      Truthful;
    StepInv(s, e);
    match e
    case Begin(tab, source) => BeginLock(s, tab, source);
    case Loaded(tab, ok) => LoadedLock(s, tab, ok);
    case PhotoRead(tab, ok) => PhotoLock(s, tab, ok);
    case Committed(tab, ok) => CommittedLock(s, tab, ok);
    case Answered(tab, reply) => AnsweredLock(s, tab, reply);
    case _ =>
  }

  lemma BeginLock(s: System, tab: Tab, source: Draft)
    requires LockInv(s) && Enabled(s, Begin(tab, source)) && Inv(Apply(s, Begin(tab, source)))
    ensures LockInv(Apply(s, Begin(tab, source)))
  {
    hide Inv, BodyIs;
  }

  lemma {:induction false} RunLock(s: System, events: seq<Event>)
    requires LockInv(s) && Legal(s, events)
    ensures LockInv(After(s, events))
    decreases |events|
  {
    if events != [] {
      StepLock(s, events[0]);
      RunLock(Apply(s, events[0]), events[1..]);
    }
  }

  // ------------------------------------------------------------------ theorems

  /** Under the lock, and while the note has not been discarded, every create request ever sent for it, over retries
      and crashes, carries one and the same body: the recorded note at the photo its row already names. */
  lemma OneBody(original: Draft, events: seq<Event>)
    requires Fresh(original) && Legal(Start(original, true), events)
    requires !After(Start(original, true), events).discarded
    ensures var s := After(Start(original, true), events);
      && s.row.Some?
      && (forall a, b | a in s.creates && b in s.creates :: a == b)
      && (forall body | body in s.creates ::
            && body.meta == original.meta
            && (original.target.Photo? ==>
              Truthy(body.photoMediaId) && s.row.value.target.Photo? && s.row.value.target.mediaId == body.photoMediaId)
            && (original.target.Video? ==> body.video == Some(original.target)))
  {
    StartLockInv(original);
    RunLock(Start(original, true), events);
    var s := After(Start(original, true), events);
    SameOriginal(Start(original, true), events);
    forall body | body in s.creates ensures BodyIs(s.row.value, body) { }
  }

  lemma {:induction false} SameOriginal(s: System, events: seq<Event>)
    requires Legal(s, events)
    ensures After(s, events).original == s.original
    decreases |events|
  {
    if events != [] {
      Effect(s, events[0]);
      SameOriginal(Apply(s, events[0]), events[1..]);
    }
  }

  predicate Final(state: DraftState) {
    state.Received? || state.Unsendable?
  }

  /** One step under the lock: a final state stays, and a photo id once stored stays what it is. */
  lemma StepIsFinal(s: System, e: Event)
    requires LockInv(s) && Enabled(s, e) && s.row.Some? && Apply(s, e).row.Some?
    ensures Final(s.row.value.state) ==> Apply(s, e).row == s.row
    ensures s.row.value.target.Photo? && Truthy(s.row.value.target.mediaId) ==>
      Apply(s, e).row.value.target == s.row.value.target
  {
    hide Inv, BodyIs, Apply, WriteRow;
    Effect(s, e);
    if e.Committed? {
      WriteLock(s, e.tab);
    }
  }

  lemma {:induction false} DiscardIsFinal(s: System, events: seq<Event>)
    requires Legal(s, events) && s.row.None?
    ensures After(s, events).row.None?
    decreases |events|
  {
    if events != [] {
      Effect(s, events[0]);
      DiscardIsFinal(Apply(s, events[0]), events[1..]);
    }
  }

  /** Under the lock, RECEIVED and UNSENDABLE are the last states of a row, and a note never moves to another photo:
      whatever happens later, the row is gone or is as it was. */
  lemma {:induction false} FinalStatesStay(s: System, events: seq<Event>)
    requires LockInv(s) && Legal(s, events) && s.row.Some?
    ensures After(s, events).row.Some? && Final(s.row.value.state) ==> After(s, events).row == s.row
    ensures After(s, events).row.Some? && s.row.value.target.Photo? && Truthy(s.row.value.target.mediaId) ==>
      After(s, events).row.value.target == s.row.value.target
    decreases |events|
  {
    if events != [] {
      var t := Apply(s, events[0]);
      if t.row.None? {
        DiscardIsFinal(t, events[1..]);
      } else {
        StepIsFinal(s, events[0]);
        StepLock(s, events[0]);
        FinalStatesStay(t, events[1..]);
      }
    }
  }

  /** With or without the lock: RECEIVED means the server is past the upload, and a stored note id is the server's. */
  lemma ReceivedIsPast(original: Draft, locks: bool, events: seq<Event>)
    requires Fresh(original) && Legal(Start(original, locks), events)
    ensures var s := After(Start(original, locks), events);
      s.row.Some? ==>
        && (s.row.value.state.Received? ==> Past(s.server))
        && (s.row.value.noteId.Some? ==> !s.server.status.NoNote? && s.row.value.noteId.value == s.server.noteId)
  {
    StartInv(original, locks);
    RunInv(Start(original, locks), events);
  }

  /** A stored note id is never replaced or removed while the row exists. */
  lemma NoteIdIsWrittenOnce(s: System, e: Event)
    requires Inv(s) && Enabled(s, e) && s.row.Some? && s.row.value.noteId.Some? && Apply(s, e).row.Some?
    ensures Apply(s, e).row.value.noteId == s.row.value.noteId
  {
    hide Apply, ServerOk, Truthful, SameAnchor;
    Effect(s, e);
  }
}
