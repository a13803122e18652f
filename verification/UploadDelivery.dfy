/** An open note can still be delivered: under the lock, from every reachable state, unless the server ended it. */
module UploadDelivery {
  import opened Options
  import opened AudioDrafts
  import opened UploadProtocol
  import opened UploadSafety
  import opened UploadLock
  import CaptureAnswers

  ghost predicate Reaches(s: System, t: System) {
    exists events :: Legal(s, events) && After(s, events) == t
  }

  lemma ReachesItself(s: System)
    ensures Reaches(s, s)
  {
    assert Legal(s, []) && After(s, []) == s;
  }

  /** One more event on the way, which keeps what the lock keeps. */
  lemma Onward(s: System, t: System, e: Event) returns (u: System)
    requires Reaches(s, t) && LockInv(t) && Enabled(t, e)
    ensures u == Apply(t, e) && Reaches(s, u) && LockInv(u)
  {
    hide LockInv, Apply, Enabled;
    var events :| Legal(s, events) && After(s, events) == t;
    LegalAppend(s, events, e);
    StepLock(t, e);
    u := Apply(t, e);
    assert Legal(s, events + [e]) && After(s, events + [e]) == u;
  }

  /** The note is still to be sent, and the server would still take it. */
  predicate Deliverable(s: System) {
    s.row.Some? && Open(s.row.value.state) && !s.server.status.Ended?
  }

  predicate Delivered(s: System) {
    && s.row.Some? && s.row.value.state.Received?
    && s.server.status.Durable? && s.server.held == s.original.audio
  }

  /** The run of tab 0 is at its creation, whose request has been sent. */
  predicate CreationSent(s: System) {
    0 in s.runs && s.runs[0].Creating? && BodyOf(s.runs[0].draft) in s.creates
  }

  // ---------------------------------------------------------------- one attempt

  /** The run under way, if any, stops. */
  lemma Stop(s: System) returns (t: System)
    requires LockInv(s) && Deliverable(s)
    ensures Reaches(s, t) && LockInv(t) && Deliverable(t) && t.runs == map[]
  {
    hide Inv, BodyIs, Working;
    ReachesItself(s);
    t := s;
    if s.runs != map[] {
      var tab :| tab in s.runs;
      t := Onward(s, s, Crash(tab));
      assert t.runs == map[];
    }
  }

  /** A tab lists the note, begins a run and reads it. */
  lemma Read(s: System, idle: System) returns (t: System)
    requires Reaches(s, idle) && LockInv(idle) && Deliverable(idle) && idle.runs == map[]
    ensures Reaches(s, t) && LockInv(t) && Deliverable(t) && 0 in t.runs
    ensures t.runs[0].ResolvingPhoto? || CreationSent(t)
  {
    RowReadable(idle);
    hide Inv, BodyIs, Working, Restore, LockInv, RowRead, AfterLoad, Reaches;
    var draft := RowRead(idle).value;
    t := Onward(s, idle, Listed);
    t := Onward(s, t, Begin(0, draft));
    SameRead(idle, t);
    OpenRowIsSent(t);
    t := Onward(s, t, Loaded(0, true));
  }

  lemma SameRead(s: System, t: System)
    requires s.row == t.row
    ensures RowRead(s) == RowRead(t)
  {
  }

  /** An open row is complete: reading it leads to the photo or to the creation. */
  lemma OpenRowIsSent(s: System)
    requires LockInv(s) && Deliverable(s)
    ensures RowRead(s).Some? && AfterLoad(RowRead(s).value).Some?
    ensures AfterLoad(RowRead(s).value).value.ResolvingPhoto? || AfterLoad(RowRead(s).value).value.Creating?
  {
    RowReadable(s);
  }

  /** The photo of the note is there and ready. */
  function ReadyPhoto(draft: Draft): PhotoDraft
    requires draft.target.Photo? && draft.target.photoDraftId.Some?
  {
    PhotoDraft(draft.target.photoDraftId.value,
               CaptureAnswers.MediaDraft(draft.meta.requirementKey, Some("media"), CaptureAnswers.Ready, true, [true]))
  }

  lemma ReadyPhotoResolves(draft: Draft)
    requires NeedsMedia(draft.target) && draft.target.photoDraftId.Some?
    ensures Resolved(draft, Some([ReadyPhoto(draft)])) == PhotoReady("media")
  {
  }

  /** A note waiting for its photo names one. */
  lemma WaitingNoteNamesPhoto(s: System)
    requires LockInv(s) && s.row.Some? && 0 in s.runs && s.runs[0].ResolvingPhoto?
    ensures NeedsMedia(s.runs[0].draft.target) && s.runs[0].draft.target.photoDraftId.Some?
    ensures s.runs[0].draft.meta.responsibility == s.row.value.meta.responsibility
  {
  }

  /** The photo becomes ready, is found, and its media id is written down. */
  lemma FindPhoto(s: System, waiting: System) returns (t: System)
    requires Reaches(s, waiting) && LockInv(waiting) && Deliverable(waiting)
    requires 0 in waiting.runs && waiting.runs[0].ResolvingPhoto?
    ensures Reaches(s, t) && LockInv(t) && Deliverable(t) && CreationSent(t)
  {
    var draft := waiting.runs[0].draft;
    WaitingNoteNamesPhoto(waiting);
    ReadyPhotoResolves(draft);
    hide Inv, BodyIs, Working, LockInv, Resolved, ReadyPhoto, Reaches;
    t := Onward(s, waiting, PhotosChange([ReadyPhoto(draft)]));
    t := Onward(s, t, PhotoRead(0, true));
    t := WriteDown(s, t);
  }

  lemma WriteDown(s: System, found: System) returns (t: System)
    requires Reaches(s, found) && LockInv(found) && Deliverable(found)
    requires 0 in found.runs && found.runs[0].PersistingTarget?
    ensures Reaches(s, t) && LockInv(t) && Deliverable(t) && CreationSent(t)
  {
    WriteLock(found, 0);
    WorkingOpen(found);
    hide Inv, BodyIs, Working, LockInv, Merge, Reaches;
    t := Onward(s, found, Committed(0, true));
  }

  lemma WorkingOpen(s: System)
    requires LockInv(s) && s.row.Some? && 0 in s.runs
    ensures s.runs[0].PersistingTarget? ==> Open(s.runs[0].draft.state)
  {
  }

  /** The server creates the note, if it has not yet, and answers. */
  lemma Create(s: System, ready: System) returns (t: System)
    requires Reaches(s, ready) && LockInv(ready) && Deliverable(ready) && CreationSent(ready)
    ensures Reaches(s, t) && LockInv(t) && Deliverable(t) && 0 in t.runs && t.runs[0].PersistingNote?
    ensures !t.server.status.NoNote?
  {
    hide Inv, BodyIs, Working, LockInv, BodyOf, Reaches;
    t := ready;
    if ready.server.status.NoNote? {
      t := Onward(s, ready, ServerCreates(BodyOf(ready.runs[0].draft), "id"));
    }
    t := AnswerCreation(s, t);
  }

  lemma AnswerCreation(s: System, created: System) returns (t: System)
    requires Reaches(s, created) && LockInv(created) && Deliverable(created) && !created.server.status.NoNote?
    requires 0 in created.runs && created.runs[0].Creating?
    ensures Reaches(s, t) && LockInv(t) && Deliverable(t) && 0 in t.runs && t.runs[0].PersistingNote?
    ensures !t.server.status.NoNote?
  {
    CreatingDraft(created);
    hide Inv, BodyIs, Working, LockInv, BodyOf, Reaches;
    t := Onward(s, created, Answered(0, Done));
  }

  /** A creating run knows no note id but the server's. */
  lemma CreatingDraft(s: System)
    requires LockInv(s) && 0 in s.runs && s.runs[0].Creating?
    ensures s.runs[0].draft.noteId.Some? ==>
      !s.server.status.NoNote? && s.runs[0].draft.noteId.value == s.server.noteId
  {
  }

  /** The tab writes the note id down and sends the bytes. */
  lemma StoreId(s: System, created: System) returns (t: System)
    requires Reaches(s, created) && LockInv(created) && Deliverable(created) && !created.server.status.NoNote?
    requires 0 in created.runs && created.runs[0].PersistingNote?
    ensures Reaches(s, t) && LockInv(t) && Deliverable(t) && BytesSent(t) && !t.server.status.NoNote?
  {
    WriteLock(created, 0);
    WholeAudio(created);
    hide Inv, BodyIs, Working, LockInv, Merge, Reaches;
    t := Onward(s, created, Committed(0, true));
  }

  lemma WholeAudio(s: System)
    requires LockInv(s) && 0 in s.runs && s.runs[0].PersistingNote?
    ensures s.runs[0].draft.audio.Some?
  {
  }

  predicate BytesSent(s: System) {
    0 in s.runs && s.runs[0].Putting? && s.runs[0].draft.audio.Some? && s.runs[0].draft.audio.value in s.puts
  }

  /** The storage takes the bytes and the tab asks for the completion. */
  lemma PutBytes(s: System, sent: System) returns (t: System)
    requires Reaches(s, sent) && LockInv(sent) && Deliverable(sent) && BytesSent(sent) && !sent.server.status.NoNote?
    ensures Reaches(s, t) && LockInv(t) && Deliverable(t) && CompletionSent(t) && !t.server.status.NoNote?
  {
    hide Inv, BodyIs, Working, LockInv, Reaches;
    t := Onward(s, sent, ServerStores(sent.runs[0].draft.audio.value));
    t := Onward(s, t, Answered(0, Done));
  }

  predicate CompletionSent(s: System) {
    0 in s.runs && s.runs[0].Completing? && s.stored.Some? && s.completes
  }

  /** The server completes, if it has not yet, and answers. */
  lemma Complete(s: System, sent: System) returns (t: System)
    requires Reaches(s, sent) && LockInv(sent) && Deliverable(sent) && CompletionSent(sent)
    requires !sent.server.status.NoNote?
    ensures Reaches(s, t) && LockInv(t) && Deliverable(t) && 0 in t.runs && t.runs[0].WritingReceipt?
    ensures t.server.status.Durable?
  {
    hide Inv, BodyIs, Working, LockInv, Reaches;
    t := sent;
    if t.server.status.Uploading? {
      t := Onward(s, t, ServerCompletes);
    }
    t := Onward(s, t, Answered(0, Done));
  }

  lemma Receive(s: System, completed: System) returns (t: System)
    requires Reaches(s, completed) && LockInv(completed) && Deliverable(completed) && completed.server.status.Durable?
    requires 0 in completed.runs && completed.runs[0].WritingReceipt?
    ensures Reaches(s, t) && Delivered(t)
  {
    WriteLock(completed, 0);
    hide Inv, BodyIs, Working, LockInv, Merge, Reaches;
    t := Onward(s, completed, Committed(0, true));
    ReceiptRow(completed);
    DurableHolds(t);
  }

  lemma ReceiptRow(s: System)
    requires LockInv(s) && s.row.Some? && 0 in s.runs && s.runs[0].WritingReceipt?
    ensures WriteRow(s, Written(s.runs[0])).row.Some?
    ensures WriteRow(s, Written(s.runs[0])).row.value.state.Received?
  {
  }

  lemma DurableHolds(s: System)
    requires LockInv(s) && s.server.status.Durable?
    ensures s.server.held == s.original.audio
  {
  }

  // ------------------------------------------------------------------ theorem

  /** Under the lock, from every state in which the note is still to be sent and the server would take it, there is a
      continuation that delivers it: RECEIVED on the device and durable, byte for byte, on the server. */
  lemma DeliveryIsPossible(s: System)
    requires LockInv(s) && Deliverable(s)
    ensures exists t :: Reaches(s, t) && Delivered(t)
  {
    hide LockInv, Deliverable, Delivered, Reaches;
    var t := Stop(s);
    t := Read(s, t);
    if t.runs[0].ResolvingPhoto? {
      t := FindPhoto(s, t);
    }
    t := Create(s, t);
    t := StoreId(s, t);
    t := PutBytes(s, t);
    t := Complete(s, t);
    t := Receive(s, t);
  }

  /** So every run can still end well: an undiscarded note is final, or was ended by the server, or can be delivered. */
  lemma EveryNoteCanSettle(original: Draft, events: seq<Event>)
    requires Fresh(original) && Legal(Start(original, true), events)
    ensures var s := After(Start(original, true), events);
      || (s.row.None? && s.discarded) || (s.row.Some? && Final(s.row.value.state)) || s.server.status.Ended?
      || exists t :: Reaches(s, t) && Delivered(t)
  {
    hide Fresh, Delivered, Reaches;
    StartLockInv(original);
    RunLock(Start(original, true), events);
    var s := After(Start(original, true), events);
    if s.row.Some? && !Final(s.row.value.state) && !s.server.status.Ended? {
      DeliveryIsPossible(s);
    }
  }
}
