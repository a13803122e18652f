/** No audio is lost: what every reachable state of an upload keeps, with or without Web Locks. */
module UploadSafety {
  import opened Options
  import opened AudioDrafts
  import opened UploadProtocol

  // --------------------------------------------------------------- invariant

  /** The anchor of the saved note, with at most a media id added to a photo. */
  predicate SameAnchor(target: Target, original: Target) {
    || target == original
    || (target.Photo? && original.Photo? && target.photoDraftId == original.photoDraftId && Truthy(target.mediaId))
  }

  predicate NoteIdKnown(noteId: Option<string>, server: Server) {
    noteId.Some? ==> !server.status.NoNote? && noteId.value == server.noteId
  }

  /** A draft some tab holds: the saved note, with its whole audio or, once final, none; no note id but the server's;
      and a receipt only when the server is past the upload. */
  predicate DraftOk(s: System, draft: Draft) {
    && draft.meta == s.original.meta
    && SameAnchor(draft.target, s.original.target)
    && (draft.audio == s.original.audio || draft.audio == None)
    && (draft.state.PendingUpload? || draft.state.Failed? ==> draft.audio == s.original.audio)
    && NoteIdKnown(draft.noteId, s.server)
    && (draft.state.Received? ==> Past(s.server))
  }

  predicate RowOk(s: System, row: Record) {
    && row.meta == s.original.meta
    && SameAnchor(row.target, s.original.target)
    && (row.audioBytes == s.original.audio || (row.audioBytes == None && Past(s.server)))
    && (row.state.Received? ==> Past(s.server))
    && NoteIdKnown(row.noteId, s.server)
  }

  function NoteOf(await: Await): Option<string> {
    match await
    case PersistingNote(_, noteId) => Some(noteId)
    case Putting(_, noteId) => Some(noteId)
    case Completing(_, noteId) => Some(noteId)
    case WritingReceipt(_, noteId) => Some(noteId)
    case _ => None
  }

  function DraftOf(await: Await): Draft {
    if await.Loading? then await.source else await.draft
  }

  predicate RunOk(s: System, await: Await) {
    && DraftOk(s, DraftOf(await))
    && NoteIdKnown(NoteOf(await), s.server)
    && (await.Creating? || await.PersistingNote? || await.Putting? || await.PersistingTarget? || await.ResolvingPhoto?
        ==> await.draft.audio == s.original.audio)
    && (await.PersistingTarget? || await.ResolvingPhoto? ==>
      await.draft.state.PendingUpload? || await.draft.state.Failed?)
    && (await.WritingReceipt? || await.WritingReconciled? ==> Past(s.server))
  }

  predicate ServerOk(s: System) {
    && (forall bytes | bytes in s.puts :: Some(bytes) == s.original.audio)
    && (s.stored.Some? ==> s.stored == s.original.audio)
    && (s.server.status.Durable? ==> s.server.held == s.original.audio)
  }

  predicate Inv(s: System) {
    && Fresh(s.original)
    && (s.row.None? ==> s.discarded)
    && (s.row.Some? ==> RowOk(s, s.row.value))
    && (forall draft | draft in s.known :: DraftOk(s, draft))
    && (forall tab | tab in s.runs :: RunOk(s, s.runs[tab]))
    && ServerOk(s)
  }

  lemma StartInv(original: Draft, locks: bool)
    requires Fresh(original)
    ensures Inv(Start(original, locks))
  {
  }

  // ------------------------------------------------------------ preservation

  lemma RowReadOk(s: System)
    requires Inv(s) && RowRead(s).Some?
    ensures DraftOk(s, RowRead(s).value)
  {
  }

  lemma EndRunInv(s: System, tab: Tab)
    requires Inv(s)
    ensures Inv(s.(runs := s.runs - {tab}))
  {
    hide RunOk, RowOk, DraftOk, ServerOk;
    var t := s.(runs := s.runs - {tab});
    KeepsRules(s, t);
  }

  lemma SetRunInv(s: System, tab: Tab, await: Await)
    requires Inv(s) && RunOk(s, await)
    ensures Inv(s.(runs := s.runs[tab := await]))
  {
    hide RunOk, RowOk, DraftOk, ServerOk;
    var t := s.(runs := s.runs[tab := await]);
    KeepsRules(s, t);
    SameRules(s, t, await);
  }

  /** The rules for drafts, rows and runs look only at the saved note and the server. */
  lemma SameRules(s: System, t: System, await: Await)
    requires t.original == s.original && t.server == s.server
    ensures RunOk(t, await) <==> RunOk(s, await)
  {
  }

  lemma KeepsRules(s: System, t: System)
    requires Inv(s) && t.original == s.original && t.server == s.server
    ensures forall draft | draft in s.known :: DraftOk(t, draft)
    ensures s.row.Some? ==> RowOk(t, s.row.value)
    ensures forall tab | tab in s.runs :: RunOk(t, s.runs[tab])
    ensures t.puts == s.puts && t.stored == s.stored ==> ServerOk(t)
  {
  }

  /** Moving a run to an await that keeps to the rules keeps the invariant, whatever request goes out. */
  lemma ResumeInv(s: System, tab: Tab, next: Option<Await>)
    requires Inv(s) && (next.Some? ==> RunOk(s, next.value))
    ensures Inv(Resume(s, tab, next))
  {
    if next.None? {
      EndRunInv(s, tab);
    } else {
      SetRunInv(s, tab, next.value);
      SendInv(s.(runs := s.runs[tab := next.value]), Resume(s, tab, next));
    }
  }

  lemma SendInv(s: System, t: System)
    requires Inv(s) && t == s.(creates := t.creates, puts := t.puts, completes := t.completes)
    requires forall bytes | bytes in t.puts :: bytes in s.puts || Some(bytes) == s.original.audio
    ensures Inv(t)
  {
    hide RunOk, RowOk, DraftOk;
    KeepsRules(s, t);
  }

  lemma AfterLoadOk(s: System, draft: Draft)
    requires Inv(s) && DraftOk(s, draft) && AfterLoad(draft).Some?
    ensures RunOk(s, AfterLoad(draft).value)
  {
  }

  lemma AfterPhotoOk(s: System, await: Await, photo: PhotoLookup)
    requires Inv(s) && RunOk(s, await) && await.ResolvingPhoto? && (photo.PhotoReady? ==> photo.mediaId != "")
    ensures AfterPhoto(await.draft, photo).Some? ==> RunOk(s, AfterPhoto(await.draft, photo).value)
  {
  }

  lemma AfterReplyOk(s: System, await: Await, reply: Reply)
    requires Inv(s) && RunOk(s, await) && AwaitsReply(await) && Truthful(s, await, reply)
    ensures AfterReply(s, await, reply).Some? ==> RunOk(s, AfterReply(s, await, reply).value)
  {
  }

  lemma WriteRowInv(s: System, await: Await)
    requires Inv(s) && RunOk(s, await) && AwaitsStore(await)
    ensures Inv(WriteRow(s, Written(await)))
  {
  }

  lemma AfterWriteOk(s: System, await: Await, ok: bool)
    requires Inv(s) && RunOk(s, await) && AwaitsStore(await)
    ensures AfterWrite(await, ok).Some? ==> RunOk(s, AfterWrite(await, ok).value)
  {
  }

  /** Only the server entry moves, and only forward: to a first note id, or past the upload. */
  lemma ServerMovesInv(s: System, server: Server)
    requires Inv(s)
    requires s.server.status.NoNote? || server.noteId == s.server.noteId
    requires s.server.status.NoNote? <== server.status.NoNote?
    requires Past(s.server) ==> Past(server)
    requires server.status.Durable? ==> server.held == s.original.audio
    ensures Inv(s.(server := server))
  {
  }

  lemma StepInv(s: System, e: Event)
    requires Inv(s) && Enabled(s, e)
    ensures Inv(Apply(s, e))
  {
    hide Resume, WriteRow, AfterLoad, AfterPhoto, AfterReply, AfterWrite, Written, RunOk, RowOk, DraftOk;
    match e
    case Begin(tab, source) => BeginInv(s, tab, source);
    case Crash(tab) => EndRunInv(s, tab);
    case Loaded(tab, ok) => LoadedInv(s, tab, ok);
    case PhotoRead(tab, ok) => PhotoReadInv(s, tab, ok);
    case Committed(tab, ok) => CommittedInv(s, tab, ok);
    case Answered(tab, reply) =>
      AfterReplyOk(s, s.runs[tab], reply);
      ResumeInv(s, tab, AfterReply(s, s.runs[tab], reply));
    case ServerCreates(_, noteId) =>
      if s.server.status.NoNote? { ServerMovesInv(s, Server(Uploading, noteId, None)); }
    case ServerStores(bytes) => StoresInv(s, bytes);
    case ServerCompletes =>
      if s.server.status.Uploading? { ServerMovesInv(s, s.server.(status := Durable, held := s.stored)); }
    case ServerEnds => ServerMovesInv(s, s.server.(status := Ended));
    case PhotosChange(photos) => PhotosInv(s, photos);
    case Listed => ListedInv(s);
    case Discard => DiscardInv(s);
  }

  /** A lookup never yields an empty media id. */
  lemma ResolvedIsTruthy(draft: Draft, read: Option<seq<PhotoDraft>>)
    ensures Resolved(draft, read) != PhotoReady("")
  {
  }

  lemma PhotoReadInv(s: System, tab: Tab, ok: bool)
    requires Inv(s) && Enabled(s, PhotoRead(tab, ok))
    ensures Inv(Apply(s, PhotoRead(tab, ok)))
  {
    hide Inv, Resume, AfterPhoto, Resolved, RunOk;
    var draft := s.runs[tab].draft;
    var photo := Resolved(draft, PhotosSeen(s, ok));
    InvOfRun(s, tab);
    ResolvedIsTruthy(draft, PhotosSeen(s, ok));
    AfterPhotoOk(s, s.runs[tab], photo);
    ResumeInv(s, tab, AfterPhoto(draft, photo));
  }

  lemma InvOfRun(s: System, tab: Tab)
    requires Inv(s) && tab in s.runs
    ensures RunOk(s, s.runs[tab])
  {
  }

  lemma PhotosInv(s: System, photos: seq<PhotoDraft>)
    requires Inv(s)
    ensures Inv(s.(photos := photos))
  {
    hide RunOk, RowOk, DraftOk, ServerOk;
    KeepsRules(s, s.(photos := photos));
  }

  lemma BeginInv(s: System, tab: Tab, source: Draft)
    requires Inv(s) && source in s.known
    ensures Inv(s.(runs := s.runs[tab := Loading(source)]))
  {
  }

  lemma LoadedInv(s: System, tab: Tab, ok: bool)
    requires Inv(s) && Enabled(s, Loaded(tab, ok))
    ensures Inv(Apply(s, Loaded(tab, ok)))
  {
    hide Resume, AfterLoad, Restore, RowOk;
    var await := s.runs[tab];
    var latest := if RowRead(s).Some? then RowRead(s).value else DraftOf(await);
    if RowRead(s).Some? { RowReadOk(s); }
    if !ok {
      ResumeInv(s, tab, None);
    } else if await.Loading? {
      if AfterLoad(latest).Some? { AfterLoadOk(s, latest); }
      ResumeInv(s, tab, AfterLoad(latest));
    } else {
      ResumeInv(s, tab, Some(AfterRecovery(latest, await.failure)));
    }
  }

  lemma CommittedInv(s: System, tab: Tab, ok: bool)
    requires Inv(s) && Enabled(s, Committed(tab, ok))
    ensures Inv(Apply(s, Committed(tab, ok)))
  {
    hide Resume, AfterWrite, Written, RowOk, DraftOk, RunOk, ServerOk;
    var await := s.runs[tab];
    var t := if ok then WriteRow(s, Written(await)) else s;
    WriteRowInv(s, await);
    assert t.runs == s.runs;
    AfterWriteOk(t, await, ok);
    ResumeInv(t, tab, AfterWrite(await, ok));
  }

  lemma StoresInv(s: System, bytes: Bytes)
    requires Inv(s) && bytes in s.puts
    ensures Inv(s.(stored := Some(bytes)))
  {
  }

  lemma ListedInv(s: System)
    requires Inv(s)
    ensures Inv(Apply(s, Listed))
  {
    if RowRead(s).Some? { RowReadOk(s); }
  }

  lemma DiscardInv(s: System)
    requires Inv(s)
    ensures Inv(s.(row := None, discarded := true))
  {
  }

  lemma {:induction false} RunInv(s: System, events: seq<Event>)
    requires Inv(s) && Legal(s, events)
    ensures Inv(After(s, events))
    decreases |events|
  {
    if events != [] {
      StepInv(s, events[0]);
      RunInv(Apply(s, events[0]), events[1..]);
    }
  }

  // ------------------------------------------------------------------ theorems

  /** The original bytes are still here, or the server holds exactly them. */
  predicate Preserved(s: System) {
    || (s.row.Some? && s.row.value.audioBytes == s.original.audio)
    || (s.server.status.Durable? && s.server.held == s.original.audio)
  }

  /** The server ended the note without its audio, and that was taken for a receipt: the row is there without bytes. */
  predicate GivenUp(s: System) {
    s.server.status.Ended? && s.row.Some? && s.row.value.audioBytes.None?
  }

  /** From any saved note, after any interleaving of tabs, crashes, lost and late messages, with or without locks:
      the audio is preserved, or the note was discarded, or given up after the server had ended it. */
  lemma NoAudioLoss(original: Draft, locks: bool, events: seq<Event>)
    requires Fresh(original) && Legal(Start(original, locks), events)
    ensures var s := After(Start(original, locks), events);
      Preserved(s) || s.discarded || GivenUp(s)
  {
    StartInv(original, locks);
    RunInv(Start(original, locks), events);
  }

  lemma {:induction false} EndsOnlyByEnding(s: System, events: seq<Event>)
    requires Legal(s, events) && !s.server.status.Ended? && ServerEnds !in events
    ensures !After(s, events).server.status.Ended?
    decreases |events|
  {
    if events != [] {
      assert events[0] in events;
      assert forall e | e in events[1..] :: e in events;
      ServerStaysOpen(s, events[0]);
      EndsOnlyByEnding(Apply(s, events[0]), events[1..]);
    }
  }

  /** Resuming a run touches the run and the log of requests, nothing else. */
  lemma ResumeFrame(s: System, tab: Tab, next: Option<Await>)
    ensures var t := Resume(s, tab, next);
      t == s.(runs := t.runs, creates := t.creates, puts := t.puts, completes := t.completes)
    ensures Resume(s, tab, next).runs == if next.Some? then s.runs[tab := next.value] else s.runs - {tab}
    ensures Resume(s, tab, next).creates ==
      s.creates + (if next.Some? && next.value.Creating? then {BodyOf(next.value.draft)} else {})
  {
  }

  /** What an event does to the row and the server entry. */
  lemma Effect(s: System, e: Event)
    requires Enabled(s, e)
    ensures Apply(s, e).row ==
      if e.Discard? then None
      else if e.Committed? && e.ok then WriteRow(s, Written(s.runs[e.tab])).row
      else s.row
    ensures !e.ServerCreates? && !e.ServerCompletes? && !e.ServerEnds? ==> Apply(s, e).server == s.server
    ensures Apply(s, e).original == s.original && Apply(s, e).locks == s.locks
    ensures Apply(s, e).discarded == (s.discarded || e.Discard?)
  {
    hide Resolved, Resume, AfterLoad, AfterPhoto, AfterReply, AfterWrite, Written, Truthful, RowRead, AfterRecovery;
    match e
    case Loaded(tab, ok) =>
      var latest := if RowRead(s).Some? then RowRead(s).value else DraftOf(s.runs[tab]);
      ResumeFrame(s, tab, None);
      ResumeFrame(s, tab, AfterLoad(latest));
      if s.runs[tab].Recovering? { ResumeFrame(s, tab, Some(AfterRecovery(latest, s.runs[tab].failure))); }
    case PhotoRead(tab, ok) =>
      ResumeFrame(s, tab, AfterPhoto(s.runs[tab].draft, Resolved(s.runs[tab].draft, PhotosSeen(s, ok))));
    case Committed(tab, ok) =>
      ResumeFrame(if ok then WriteRow(s, Written(s.runs[tab])) else s, tab, AfterWrite(s.runs[tab], ok));
    case Answered(tab, reply) => ResumeFrame(s, tab, AfterReply(s, s.runs[tab], reply));
    case _ =>
  }

  lemma OthersLeaveTheRun(s: System, tab: Tab, e: Event)
    requires Enabled(s, e) && !Acts(tab, e)
    ensures tab in Apply(s, e).runs <==> tab in s.runs
    ensures tab in s.runs ==> Apply(s, e).runs[tab] == s.runs[tab]
  {
    hide Resolved, Resume, AfterLoad, AfterPhoto, AfterReply, AfterWrite, Written, Truthful, RowRead, AfterRecovery;
    match e
    case Loaded(t, ok) =>
      var latest := if RowRead(s).Some? then RowRead(s).value else DraftOf(s.runs[t]);
      ResumeFrame(s, t, None);
      ResumeFrame(s, t, AfterLoad(latest));
      if s.runs[t].Recovering? { ResumeFrame(s, t, Some(AfterRecovery(latest, s.runs[t].failure))); }
    case PhotoRead(t, ok) =>
      ResumeFrame(s, t, AfterPhoto(s.runs[t].draft, Resolved(s.runs[t].draft, PhotosSeen(s, ok))));
    case Committed(t, ok) =>
      ResumeFrame(if ok then WriteRow(s, Written(s.runs[t])) else s, t, AfterWrite(s.runs[t], ok));
    case Answered(t, reply) => ResumeFrame(s, t, AfterReply(s, s.runs[t], reply));
    case _ =>
  }

  lemma ServerStaysOpen(s: System, e: Event)
    requires Enabled(s, e) && !s.server.status.Ended? && e != ServerEnds
    ensures !Apply(s, e).server.status.Ended?
  {
    hide Resolved, Resume, AfterLoad, AfterPhoto, AfterReply, AfterWrite, Written, Truthful, RowRead;
    if !e.ServerCreates? && !e.ServerCompletes? {
      Effect(s, e);
    }
  }

  /** While the server never ends a note it has not received, no undiscarded note loses its audio. */
  lemma NoLossWithoutExpiry(original: Draft, locks: bool, events: seq<Event>)
    requires Fresh(original) && Legal(Start(original, locks), events) && ServerEnds !in events
    ensures Preserved(After(Start(original, locks), events)) || After(Start(original, locks), events).discarded
  {
    NoAudioLoss(original, locks, events);
    EndsOnlyByEnding(Start(original, locks), events);
  }

  /** The one step that loses audio: a receipt write that commits while the server has ended the note. */
  lemma OnlyAReceiptAfterTheEndLoses(s: System, e: Event)
    requires Inv(s) && Enabled(s, e) && Preserved(s) && !Preserved(Apply(s, e)) && !Apply(s, e).discarded
    ensures e.Committed? && e.ok && (s.runs[e.tab].WritingReceipt? || s.runs[e.tab].WritingReconciled?)
    ensures s.server.status.Ended? && GivenUp(Apply(s, e))
  {
    hide Apply, Inv, Truthful;
    StepInv(s, e);
    Effect(s, e);
    InvAudio(s);
    InvAudio(Apply(s, e));
    if s.row.Some? {
      BytesOnlyLeaveWithReceipt(s, e);
    }
    if s.server.status.Durable? {
      DurableStays(s, e);
    }
  }

  lemma InvAudio(s: System)
    requires Inv(s)
    ensures s.row.None? ==> s.discarded
    ensures s.row.Some? ==>
      s.row.value.audioBytes == s.original.audio || (s.row.value.audioBytes.None? && Past(s.server))
    ensures s.server.status.Durable? ==> s.server.held == s.original.audio
    ensures s.original.audio.Some?
  {
  }

  lemma DurableStays(s: System, e: Event)
    requires Enabled(s, e) && s.server.status.Durable?
    ensures Apply(s, e).server == s.server
  {
    hide Resume, AfterLoad, AfterPhoto, Resolved, AfterReply, AfterWrite, Written, Truthful, RowRead;
    if !e.ServerCreates? && !e.ServerCompletes? {
      Effect(s, e);
    }
  }

  /** The receipt write is the step that drops the bytes, and it is safe exactly when the status that allowed it is
      that of a note the server received, not that of one it ended. */
  lemma ReceiptIsSafeIffDurable(original: Draft, locks: bool, events: seq<Event>, tab: Tab)
    requires Fresh(original) && Legal(Start(original, locks), events)
    requires var s := After(Start(original, locks), events);
      tab in s.runs && (s.runs[tab].WritingReceipt? || s.runs[tab].WritingReconciled?) && s.row.Some?
    ensures var s := After(Start(original, locks), events);
      Preserved(Apply(s, Committed(tab, true))) <==> s.server.status.Durable?
  {
    StartInv(original, locks);
    RunInv(Start(original, locks), events);
  }

  /** No event brings a discarded row or dropped bytes back, and bytes are dropped only by writing a receipt. */
  lemma BytesOnlyLeaveWithReceipt(s: System, e: Event)
    requires Inv(s) && Enabled(s, e)
    ensures s.row.None? ==> Apply(s, e).row.None?
    ensures s.row.Some? && Apply(s, e).row.Some? && Apply(s, e).row.value.audioBytes != s.row.value.audioBytes ==>
      && e.Committed? && (s.runs[e.tab].WritingReceipt? || s.runs[e.tab].WritingReconciled?)
      && Apply(s, e).row.value.audioBytes == None && Apply(s, e).row.value.state.Received? && Past(s.server)
  {
    hide Apply, DraftOk, ServerOk, Truthful;
    Effect(s, e);
  }
}
