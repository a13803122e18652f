/** The upload of one saved note as a state machine.

    A run of the uploader advances from one await to the next; between two awaits of one run anything else may happen:
    other tabs, a crash, a deletion, the server, or a request that arrives late. Notes share no state, so one note with
    its row, its server entry and its object is the whole system. */
module UploadProtocol {
  import opened Options
  import opened AudioDrafts
  import CaptureAnswers

  type Tab = nat

  /** What a create request says about the note. */
  datatype Body = Body(meta: Meta, photoMediaId: Option<string>, video: Option<Target>)

  function BodyOf(draft: Draft): Body {
    match draft.target
    case Photo(_, mediaId) => Body(draft.meta, mediaId, None)
    case Video(_, _, _) => Body(draft.meta, None, Some(draft.target))
  }

  /** NoNote, then Uploading, then exactly one of: Durable, or Ended by expiry or cancellation without the audio. */
  datatype Status = NoNote | Uploading | Durable | Ended

  datatype Server = Server(status: Status, noteId: string, held: Option<Bytes>)

  /** How the failures of a request are told apart by the uploader. */
  datatype Failure = StateConflict | Terminal | Transient

  datatype Reply = Done | Refused(failure: Failure)

  /** A row of the photo store of the note's responsibility. */
  datatype PhotoDraft = PhotoDraft(id: string, media: CaptureAnswers.MediaDraft)

  datatype PhotoLookup = PhotoGone | PhotoNotReady | PhotoReady(mediaId: string)

  /** The await at which a run is suspended, with the locals it still needs. */
  datatype Await =
    | Loading(source: Draft)
    | ResolvingPhoto(draft: Draft)
    | PersistingTarget(draft: Draft)
    | Creating(draft: Draft)
    | PersistingNote(draft: Draft, noteId: string)
    | Putting(draft: Draft, noteId: string)
    | Completing(draft: Draft, noteId: string)
    | WritingReceipt(draft: Draft, noteId: string)
    | Recovering(draft: Draft, failure: Failure)
    | Querying(draft: Draft)
    | WritingReconciled(draft: Draft)
    | MarkingUnsendable(draft: Draft)
    | MarkingFailed(draft: Draft)

  datatype System = System(
    original: Draft,             // the note as it was saved
    row: Option<Record>,         // its row in the local store
    discarded: bool,             // deleted by the participant or cleared with its responsibility
    known: set<Draft>,           // drafts of this note that a tab holds
    photos: seq<PhotoDraft>,     // what the photo store holds now
    locks: bool,                 // whether the browser has Web Locks
    runs: map<Tab, Await>,       // at most one run per tab
    server: Server,
    stored: Option<Bytes>,       // content of the last PUT
    creates: set<Body>,          // every create request ever sent
    puts: set<Bytes>,            // every PUT body ever sent
    completes: bool)             // whether a completion was ever sent

  datatype Event =
    | Begin(tab: Tab, source: Draft)
    | Crash(tab: Tab)
    | Loaded(tab: Tab, ok: bool)
    | PhotoRead(tab: Tab, ok: bool)
    | Committed(tab: Tab, ok: bool)
    | Answered(tab: Tab, reply: Reply)
    | ServerCreates(body: Body, noteId: string)
    | ServerStores(bytes: Bytes)
    | ServerCompletes
    | ServerEnds
    | PhotosChange(photos: seq<PhotoDraft>)
    | Listed
    | Discard

  /** An event of the run of this tab. */
  predicate Acts(tab: Tab, e: Event) {
    match e
    case Begin(t, _) => t == tab
    case Crash(t) => t == tab
    case Loaded(t, _) => t == tab
    case PhotoRead(t, _) => t == tab
    case Committed(t, _) => t == tab
    case Answered(t, _) => t == tab
    case _ => false
  }

  /** A note as it was saved; the photo store may change at any moment, so what it holds at first does not matter. */
  function Start(original: Draft, locks: bool): System {
    System(original, Some(Stored(original)), false, {original}, [], locks, map[],
           Server(NoNote, "", None), None, {}, {}, false)
  }

  /** A freshly recorded note: complete, pending and not yet known to the server. */
  predicate Fresh(original: Draft) {
    Saveable(original) && original.state.PendingUpload? && original.noteId.None?
  }

  predicate Past(server: Server) {
    server.status.Durable? || server.status.Ended?
  }

  /** A request may fail in any way at any time; it succeeds only when the server did what it reports. */
  predicate Truthful(s: System, await: Await, reply: Reply) {
    reply.Done? ==>
      match await
      case Creating(_) => !s.server.status.NoNote?
      case Completing(_, _) => Past(s.server)
      case Querying(_) => Past(s.server)
      case _ => true
  }

  predicate AwaitsReply(await: Await) {
    await.Creating? || await.Putting? || await.Completing? || await.Querying?
  }

  predicate AwaitsStore(await: Await) {
    await.PersistingTarget? || await.PersistingNote? || await.WritingReceipt?
    || await.WritingReconciled? || await.MarkingUnsendable? || await.MarkingFailed?
  }

  predicate Enabled(s: System, e: Event) {
    match e
    case Begin(tab, source) => tab !in s.runs && source in s.known && (s.locks ==> s.runs == map[])
    case Crash(tab) => tab in s.runs
    case Loaded(tab, _) => tab in s.runs && (s.runs[tab].Loading? || s.runs[tab].Recovering?)
    case PhotoRead(tab, _) => tab in s.runs && s.runs[tab].ResolvingPhoto?
    case Committed(tab, _) => tab in s.runs && AwaitsStore(s.runs[tab])
    case Answered(tab, reply) => tab in s.runs && AwaitsReply(s.runs[tab]) && Truthful(s, s.runs[tab], reply)
    case ServerCreates(body, noteId) => body in s.creates && noteId != ""
    case ServerStores(bytes) => bytes in s.puts
    case ServerCompletes => s.completes && s.stored.Some?
    case ServerEnds => s.server.status.Uploading?
    case PhotosChange(_) => true
    case Listed => true
    case Discard => true
  }

  // ------------------------------------------------------------ the uploader

  function RowRead(s: System): Option<Draft> {
    if s.row.Some? then Restore(s.row.value) else None
  }

  /** Where a run goes from its first read; None when it returns or throws at once. */
  function AfterLoad(draft: Draft): Option<Await> {
    if draft.state.Received? || draft.state.Unsendable? then None
    else if draft.audio.None? || |draft.audio.value| != draft.meta.sizeBytes then Some(MarkingUnsendable(draft))
    else if draft.target.Photo? && !Truthy(draft.target.mediaId) then Some(ResolvingPhoto(draft))
    else Some(Creating(draft))
  }

  function WithMedia(draft: Draft, mediaId: string): Draft
    requires draft.target.Photo?
  {
    draft.(target := draft.target.(mediaId := Some(mediaId)))
  }

  /** The first photo with this id. */
  function PhotoById(photos: seq<PhotoDraft>, id: Option<string>): Option<PhotoDraft> {
    if photos == [] then None
    else if Some(photos[0].id) == id then Some(photos[0])
    else PhotoById(photos[1..], id)
  }

  /** Where the photo of a note stands, by what was read of the photo store; a failed read counts as an empty store. */
  function Resolved(draft: Draft, read: Option<seq<PhotoDraft>>): PhotoLookup {
    if !draft.target.Photo? then PhotoNotReady
    else if Truthy(draft.target.mediaId) then PhotoReady(draft.target.mediaId.value)
    else
      var photo := PhotoById(if read.Some? then read.value else [], draft.target.photoDraftId);
      if photo.None? then PhotoGone
      else if !Truthy(photo.value.media.mediaId) || !CaptureAnswers.IsReady(photo.value.media) then PhotoNotReady
      else PhotoReady(photo.value.media.mediaId.value)
  }

  function PhotosSeen(s: System, ok: bool): Option<seq<PhotoDraft>> {
    if ok then Some(s.photos) else None
  }

  function AfterPhoto(draft: Draft, photo: PhotoLookup): Option<Await> {
    match photo
    case PhotoNotReady => None
    case PhotoGone => Some(MarkingUnsendable(draft))
    case PhotoReady(mediaId) => if draft.target.Photo? then Some(PersistingTarget(WithMedia(draft, mediaId))) else None
  }

  function AfterReply(s: System, await: Await, reply: Reply): Option<Await>
    requires AwaitsReply(await)
  {
    match await
    case Creating(draft) =>
      if reply.Refused? then Some(Recovering(draft, reply.failure))
      else if draft.noteId.Some? && draft.noteId.value != s.server.noteId then Some(Recovering(draft, Transient))
      else Some(PersistingNote(draft, s.server.noteId))
    case Putting(draft, noteId) =>
      if reply.Refused? then Some(Recovering(draft, Transient)) else Some(Completing(draft, noteId))
    case Completing(draft, noteId) =>
      if reply.Refused? then Some(Recovering(draft, reply.failure)) else Some(WritingReceipt(draft, noteId))
    case Querying(draft) =>
      if reply.Refused? then Some(MarkingUnsendable(draft)) else Some(WritingReconciled(draft))
  }

  /** The catch block after it has read the row again. */
  function AfterRecovery(latest: Draft, failure: Failure): Await {
    match failure
    case StateConflict => if latest.noteId.Some? then Querying(latest) else MarkingUnsendable(latest)
    case Terminal => MarkingUnsendable(latest)
    case Transient => MarkingFailed(latest)
  }

  /** The draft that a pending store write merges into the row. */
  function Written(await: Await): Draft
    requires AwaitsStore(await)
  {
    match await
    case PersistingTarget(draft) => draft
    case PersistingNote(draft, noteId) => draft.(noteId := Some(noteId), state := PendingUpload)
    case WritingReceipt(draft, noteId) => draft.(noteId := Some(noteId), state := Received, audio := None)
    case WritingReconciled(draft) => draft.(state := Received, audio := None)
    case MarkingUnsendable(draft) => draft.(state := Unsendable)
    case MarkingFailed(draft) => draft.(state := Failed)
  }

  /** The await after a store write; an aborted write throws, and only inside the try block is that recovered. */
  function AfterWrite(await: Await, ok: bool): Option<Await>
    requires AwaitsStore(await)
  {
    match await
    case PersistingTarget(draft) => if ok then Some(Creating(draft)) else None
    case PersistingNote(draft, noteId) =>
      if ok then Some(Putting(draft, noteId)) else Some(Recovering(draft, Transient))
    case WritingReceipt(draft, _) => if ok then None else Some(Recovering(draft, Transient))
    case WritingReconciled(draft) => if ok then None else Some(MarkingUnsendable(draft))
    case MarkingUnsendable(_) => None
    case MarkingFailed(_) => None
  }

  /** Suspends a run at its next await, sending the request that the await is for, or ends it. */
  function Resume(s: System, tab: Tab, next: Option<Await>): System {
    match next
    case None => s.(runs := s.runs - {tab})
    case Some(await) =>
      var t := s.(runs := s.runs[tab := await]);
      match await
      case Creating(draft) => t.(creates := t.creates + {BodyOf(draft)})
      case Putting(draft, _) => if draft.audio.Some? then t.(puts := t.puts + {draft.audio.value}) else t
      case Completing(_, _) => t.(completes := true)
      case _ => t
  }

  function WriteRow(s: System, draft: Draft): System {
    if s.row.Some? && s.row.value.meta.responsibility == draft.meta.responsibility
    then s.(row := Some(Merge(s.row.value, draft))) else s
  }

  function Apply(s: System, e: Event): System
    requires Enabled(s, e)
  {
    match e
    case Begin(tab, source) => s.(runs := s.runs[tab := Loading(source)])
    case Crash(tab) => s.(runs := s.runs - {tab})
    case Loaded(tab, ok) =>
      (match s.runs[tab]
       case Loading(source) =>
         if !ok then Resume(s, tab, None)
         else Resume(s, tab, AfterLoad(if RowRead(s).Some? then RowRead(s).value else source))
       case Recovering(draft, failure) =>
         if !ok then Resume(s, tab, None)
         else Resume(s, tab, Some(AfterRecovery(if RowRead(s).Some? then RowRead(s).value else draft, failure))))
    case PhotoRead(tab, ok) =>
      Resume(s, tab, AfterPhoto(s.runs[tab].draft, Resolved(s.runs[tab].draft, PhotosSeen(s, ok))))
    case Committed(tab, ok) =>
      Resume(if ok then WriteRow(s, Written(s.runs[tab])) else s, tab, AfterWrite(s.runs[tab], ok))
    case Answered(tab, reply) => Resume(s, tab, AfterReply(s, s.runs[tab], reply))
    case ServerCreates(_, noteId) =>
      if s.server.status.NoNote? then s.(server := Server(Uploading, noteId, None)) else s
    case ServerStores(bytes) => s.(stored := Some(bytes))
    case ServerCompletes =>
      if s.server.status.Uploading? then s.(server := s.server.(status := Durable, held := s.stored)) else s
    case ServerEnds => s.(server := s.server.(status := Ended))
    case PhotosChange(photos) => s.(photos := photos)
    case Listed => if RowRead(s).Some? then s.(known := s.known + {RowRead(s).value}) else s
    case Discard => s.(row := None, discarded := true)
  }

  // -------------------------------------------------------------------- runs

  /** Every event is possible when its turn comes. */
  predicate Legal(s: System, events: seq<Event>)
    decreases |events|
  {
    events == [] || (Enabled(s, events[0]) && Legal(Apply(s, events[0]), events[1..]))
  }

  function After(s: System, events: seq<Event>): System
    requires Legal(s, events)
    decreases |events|
  {
    if events == [] then s else After(Apply(s, events[0]), events[1..])
  }

  lemma {:induction false} LegalAppend(s: System, events: seq<Event>, e: Event)
    requires Legal(s, events) && Enabled(After(s, events), e)
    ensures Legal(s, events + [e]) && After(s, events + [e]) == Apply(After(s, events), e)
    decreases |events|
  {
    if events == [] {
      assert events + [e] == [e] && [e][1..] == [];
    } else {
      assert (events + [e])[1..] == events[1..] + [e];
      LegalAppend(Apply(s, events[0]), events[1..], e);
    }
  }

  lemma {:induction false} LastStep(start: System, trace: seq<Event>)
    requires trace != [] && Legal(start, trace)
    ensures var n := |trace| - 1;
      Legal(start, trace[..n]) && Enabled(After(start, trace[..n]), trace[n])
      && After(start, trace) == Apply(After(start, trace[..n]), trace[n])
    decreases |trace|
  {
    var n := |trace| - 1;
    if n > 0 {
      LastStep(Apply(start, trace[0]), trace[1..]);
      assert trace[1..][..n - 1] == trace[..n][1..];
    } else {
      assert trace[..n] == [];
      assert trace[1..] == [];
    }
  }
}
