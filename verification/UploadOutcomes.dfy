/** What each answer leads to: where a run goes from every await, said by what it then does to the row and sends. */
module UploadOutcomes {
  import opened Options
  import opened AudioDrafts
  import opened UploadProtocol
  import opened UploadSafety
  import opened UploadVerdicts
  import UploadLock

  /** Everybody else acts, the run of this tab does not. */
  predicate Quiet(events: seq<Event>, tab: Tab) {
    forall e | e in events :: !Acts(tab, e)
  }

  lemma {:induction false} QuietKeeps(s: System, tab: Tab, events: seq<Event>)
    requires Inv(s) && tab in s.runs && Legal(s, events) && Quiet(events, tab)
    ensures Inv(After(s, events)) && tab in After(s, events).runs && After(s, events).runs[tab] == s.runs[tab]
    ensures Past(s.server) ==> Past(After(s, events).server)
    decreases |events|
  {
    hide Inv, Apply, Enabled, Acts, Past;
    if events != [] {
      assert events[0] in events;
      assert forall e | e in events[1..] :: e in events;
      OthersLeaveTheRun(s, tab, events[0]);
      StepInv(s, events[0]);
      if Past(s.server) {
        PastStays(s, events[0]);
      }
      QuietKeeps(Apply(s, events[0]), tab, events[1..]);
    }
  }

  lemma PastStays(s: System, e: Event)
    requires Enabled(s, e) && Past(s.server)
    ensures Past(Apply(s, e).server)
  {
    hide Resume, AfterLoad, AfterPhoto, Resolved, AfterReply, AfterWrite, Written, Truthful, RowRead;
    if !e.ServerCreates? && !e.ServerCompletes? && !e.ServerEnds? {
      Effect(s, e);
    }
  }

  // ------------------------------------------------------------ what comes next

  /** Whatever others do, the next thing the run does is a write to the store; committed, it gives an existing row this
      state and ends the run, aborted, it leaves the row and ends the run. */
  ghost predicate MarksNext(s: System, tab: Tab, state: DraftState) {
    forall events | Legal(s, events) && Quiet(events, tab) :: Marks(After(s, events), tab, state)
  }

  predicate Marks(s: System, tab: Tab, state: DraftState) {
    && Enabled(s, Committed(tab, true)) && Enabled(s, Committed(tab, false))
    && tab !in Apply(s, Committed(tab, true)).runs && tab !in Apply(s, Committed(tab, false)).runs
    && Apply(s, Committed(tab, false)).row == s.row
    && (s.row.Some? ==>
          Apply(s, Committed(tab, true)).row.Some? && Apply(s, Committed(tab, true)).row.value.state == state)
  }

  /** Whatever others do, the next thing the run does is to read the row: a failed read ends it and changes nothing
      else, a read that works is followed by the marking write. */
  ghost predicate ReadsAndMarks(s: System, tab: Tab, state: DraftState) {
    forall events | Legal(s, events) && Quiet(events, tab) ::
      var t := After(s, events);
      && Enabled(t, Loaded(tab, true)) && Enabled(t, Loaded(tab, false))
      && MarksNext(Apply(t, Loaded(tab, true)), tab, state)
      && Apply(t, Loaded(tab, false)) == t.(runs := t.runs - {tab})
  }

  lemma MarkingMarks(s: System, tab: Tab)
    requires Inv(s) && tab in s.runs && (s.runs[tab].MarkingUnsendable? || s.runs[tab].MarkingFailed?)
    ensures MarksNext(s, tab, if s.runs[tab].MarkingUnsendable? then Unsendable else Failed)
  {
    hide Inv, Apply, Enabled, Marks;
    forall events | Legal(s, events) && Quiet(events, tab)
      ensures Marks(After(s, events), tab, if s.runs[tab].MarkingUnsendable? then Unsendable else Failed)
    {
      QuietKeeps(s, tab, events);
      MarkingMarksNow(After(s, events), tab);
    }
  }

  lemma MarkingMarksNow(s: System, tab: Tab)
    requires Inv(s) && tab in s.runs && (s.runs[tab].MarkingUnsendable? || s.runs[tab].MarkingFailed?)
    ensures Marks(s, tab, if s.runs[tab].MarkingUnsendable? then Unsendable else Failed)
  {
    if s.row.Some? {
      SameResponsibility(s, tab);
    }
    hide Inv, RowRead, Restore;
  }

  lemma SameResponsibility(s: System, tab: Tab)
    requires Inv(s) && tab in s.runs && s.row.Some?
    ensures DraftOf(s.runs[tab]).meta.responsibility == s.row.value.meta.responsibility
  {
  }

  // ------------------------------------------------------------------- refusals

  /** The run has failed for this reason and reads the row again. */
  predicate Fails(s: System, tab: Tab, failure: Failure) {
    tab in s.runs && s.runs[tab].Recovering? && s.runs[tab].failure == failure
  }

  lemma FailureMarks(s: System, tab: Tab, failure: Failure)
    requires Inv(s) && Fails(s, tab, failure) && !failure.StateConflict?
    ensures ReadsAndMarks(s, tab, if failure.Terminal? then Unsendable else Failed)
  {
    hide Inv, MarksNext;
    forall events | Legal(s, events) && Quiet(events, tab)
      ensures var t := After(s, events);
        && Enabled(t, Loaded(tab, true)) && Enabled(t, Loaded(tab, false))
        && MarksNext(Apply(t, Loaded(tab, true)), tab, if failure.Terminal? then Unsendable else Failed)
        && Apply(t, Loaded(tab, false)) == t.(runs := t.runs - {tab})
    {
      QuietKeeps(s, tab, events);
      FailureMarksNow(After(s, events), tab, failure);
    }
  }

  lemma FailureMarksNow(t: System, tab: Tab, failure: Failure)
    requires Inv(t) && Fails(t, tab, failure) && !failure.StateConflict?
    ensures Enabled(t, Loaded(tab, true)) && Enabled(t, Loaded(tab, false))
    ensures MarksNext(Apply(t, Loaded(tab, true)), tab, if failure.Terminal? then Unsendable else Failed)
    ensures Apply(t, Loaded(tab, false)) == t.(runs := t.runs - {tab})
  {
    hide Inv, MarksNext, RowRead;
    StepInv(t, Loaded(tab, true));
    var u := Apply(t, Loaded(tab, true));
    assert tab in u.runs && if failure.Terminal? then u.runs[tab].MarkingUnsendable? else u.runs[tab].MarkingFailed?;
    MarkingMarks(u, tab);
  }

  /** The run waits for the answer to its creation or its completion. */
  predicate Asked(s: System, tab: Tab) {
    tab in s.runs && (s.runs[tab].Creating? || s.runs[tab].Completing?)
  }

  /** A creation or completion refused for good: in every reachable state, whatever happens in between, a run that then
      reads and writes successfully makes an existing row UNSENDABLE. */
  lemma TerminalRefusalMakesUnsendable(original: Draft, locks: bool, events: seq<Event>, tab: Tab)
    requires Fresh(original) && Legal(Start(original, locks), events)
      && Asked(After(Start(original, locks), events), tab)
    ensures var s := After(Start(original, locks), events);
      && Enabled(s, Answered(tab, Refused(Terminal)))
      && ReadsAndMarks(Apply(s, Answered(tab, Refused(Terminal))), tab, Unsendable)
  {
    hide Inv, ReadsAndMarks, Fresh;
    StartInv(original, locks);
    RunInv(Start(original, locks), events);
    var s := After(Start(original, locks), events);
    StepInv(s, Answered(tab, Refused(Terminal)));
    FailureMarks(Apply(s, Answered(tab, Refused(Terminal))), tab, Terminal);
  }

  /** Any other failure: a creation or completion that failed for the moment, a PUT that failed, a note id or a receipt
      that could not be stored. */
  predicate FailsForNow(s: System, tab: Tab, e: Event) {
    tab in s.runs && Acts(tab, e) &&
    match s.runs[tab]
    case Creating(_) => e == Answered(tab, Refused(Transient))
    case Completing(_, _) => e == Answered(tab, Refused(Transient))
    case Putting(_, _) => e.Answered? && e.reply.Refused?
    case PersistingNote(_, _) => e == Committed(tab, false)
    case WritingReceipt(_, _) => e == Committed(tab, false)
    case _ => false
  }

  lemma FailsForNowFails(s: System, tab: Tab, e: Event)
    requires FailsForNow(s, tab, e)
    ensures Enabled(s, e) && Fails(Apply(s, e), tab, Transient)
  {
    hide WriteRow;
  }

  /** After any of those a run that reads and writes successfully makes an existing row FAILED, to be sent again. */
  lemma FailureForNowMakesFailed(original: Draft, locks: bool, events: seq<Event>, tab: Tab, e: Event)
    requires Fresh(original) && Legal(Start(original, locks), events)
    requires FailsForNow(After(Start(original, locks), events), tab, e)
    ensures Enabled(After(Start(original, locks), events), e)
    ensures ReadsAndMarks(Apply(After(Start(original, locks), events), e), tab, Failed)
  {
    hide Inv, ReadsAndMarks, Fresh, WriteRow, Apply, Enabled, FailsForNow, Fails;
    StartInv(original, locks);
    RunInv(Start(original, locks), events);
    var s := After(Start(original, locks), events);
    FailsForNowFails(s, tab, e);
    StepInv(s, e);
    FailureMarks(Apply(s, e), tab, Transient);
  }

  // -------------------------------------------------------------- state conflicts

  /** Whatever others do, the next thing the run does is to write a receipt: committed, an existing row is RECEIVED and
      the run ends; aborted, the run goes on to mark the note with this state, reading it first if asked to. */
  ghost predicate ReceivesNext(s: System, tab: Tab, otherwise: DraftState) {
    forall events | Legal(s, events) && Quiet(events, tab) :: Receives(After(s, events), tab, otherwise)
  }

  ghost predicate Receives(s: System, tab: Tab, otherwise: DraftState) {
    && Enabled(s, Committed(tab, true)) && Enabled(s, Committed(tab, false))
    && tab !in Apply(s, Committed(tab, true)).runs
    && (s.row.Some? ==>
          Apply(s, Committed(tab, true)).row.Some? && Apply(s, Committed(tab, true)).row.value.state.Received?)
    && (if otherwise.Unsendable? then MarksNext(Apply(s, Committed(tab, false)), tab, Unsendable)
        else ReadsAndMarks(Apply(s, Committed(tab, false)), tab, otherwise))
  }

  lemma ReceiptReceives(s: System, tab: Tab)
    requires Inv(s) && tab in s.runs && (s.runs[tab].WritingReceipt? || s.runs[tab].WritingReconciled?)
    ensures ReceivesNext(s, tab, if s.runs[tab].WritingReceipt? then Failed else Unsendable)
  {
    hide Inv, Apply, Enabled, Receives;
    forall events | Legal(s, events) && Quiet(events, tab)
      ensures Receives(After(s, events), tab, if s.runs[tab].WritingReceipt? then Failed else Unsendable)
    {
      QuietKeeps(s, tab, events);
      ReceiptReceivesNow(After(s, events), tab);
    }
  }

  lemma ReceiptCommits(s: System, tab: Tab)
    requires Inv(s) && tab in s.runs && (s.runs[tab].WritingReceipt? || s.runs[tab].WritingReconciled?)
    ensures Enabled(s, Committed(tab, true)) && tab !in Apply(s, Committed(tab, true)).runs
    ensures s.row.Some? ==>
      Apply(s, Committed(tab, true)).row.Some? && Apply(s, Committed(tab, true)).row.value.state.Received?
  {
    if s.row.Some? {
      SameResponsibility(s, tab);
    }
    hide Inv;
  }

  lemma ReceiptReceivesNow(s: System, tab: Tab)
    requires Inv(s) && tab in s.runs && (s.runs[tab].WritingReceipt? || s.runs[tab].WritingReconciled?)
    ensures Receives(s, tab, if s.runs[tab].WritingReceipt? then Failed else Unsendable)
  {
    ReceiptCommits(s, tab);
    hide Inv, MarksNext, ReadsAndMarks, WriteRow;
    StepInv(s, Committed(tab, false));
    AbortedReceipt(s, tab);
    hide Apply;
    var t := Apply(s, Committed(tab, false));
    if s.runs[tab].WritingReceipt? {
      FailureMarks(t, tab, Transient);
    } else {
      MarkingMarks(t, tab);
    }
  }

  lemma AbortedReceipt(s: System, tab: Tab)
    requires tab in s.runs && (s.runs[tab].WritingReceipt? || s.runs[tab].WritingReconciled?)
    ensures Enabled(s, Committed(tab, false))
    ensures s.runs[tab].WritingReceipt? ==> Fails(Apply(s, Committed(tab, false)), tab, Transient)
    ensures s.runs[tab].WritingReconciled? ==>
      tab in Apply(s, Committed(tab, false)).runs && Apply(s, Committed(tab, false)).runs[tab].MarkingUnsendable?
  {
    hide WriteRow;
  }

  /** Whatever others do, the next thing the run does is to ask for the note: without an answer that it is past the
      upload it marks the note UNSENDABLE, with one it writes the receipt. */
  ghost predicate Reconciles(s: System, tab: Tab) {
    forall events | Legal(s, events) && Quiet(events, tab) :: ReconcilesNow(After(s, events), tab)
  }

  ghost predicate ReconcilesNow(s: System, tab: Tab) {
    && (forall failure :: Enabled(s, Answered(tab, Refused(failure)))
                          && MarksNext(Apply(s, Answered(tab, Refused(failure))), tab, Unsendable))
    && (Past(s.server) <==> Enabled(s, Answered(tab, Done)))
    && (Past(s.server) ==> ReceivesNext(Apply(s, Answered(tab, Done)), tab, Unsendable))
  }

  lemma QueryReconciles(s: System, tab: Tab)
    requires Inv(s) && tab in s.runs && s.runs[tab].Querying?
    ensures Reconciles(s, tab)
  {
    hide Inv, Apply, Enabled, ReconcilesNow;
    forall events | Legal(s, events) && Quiet(events, tab) ensures ReconcilesNow(After(s, events), tab) {
      QuietKeeps(s, tab, events);
      QueryReconcilesNow(After(s, events), tab);
    }
  }

  lemma QueryReconcilesNow(s: System, tab: Tab)
    requires Inv(s) && tab in s.runs && s.runs[tab].Querying?
    ensures ReconcilesNow(s, tab)
  {
    hide Inv, MarksNext, ReceivesNext;
    forall failure
      ensures Enabled(s, Answered(tab, Refused(failure)))
      ensures MarksNext(Apply(s, Answered(tab, Refused(failure))), tab, Unsendable)
    {
      StepInv(s, Answered(tab, Refused(failure)));
      MarkingMarks(Apply(s, Answered(tab, Refused(failure))), tab);
    }
    if Past(s.server) {
      StepInv(s, Answered(tab, Done));
      ReceiptReceives(Apply(s, Answered(tab, Done)), tab);
    }
  }

  /** The note id that a run knows after it has read the row again. */
  function NoteIdRead(s: System, tab: Tab): Option<string>
    requires tab in s.runs
  {
    if RowRead(s).Some? then RowRead(s).value.noteId else DraftOf(s.runs[tab]).noteId
  }

  /** A creation or completion refused for the state of the note: the run reads the row again; a note without an id is
      then marked UNSENDABLE, one with an id is asked for and reconciled. */
  lemma StateConflictIsReconciled(original: Draft, locks: bool, events: seq<Event>, tab: Tab, more: seq<Event>)
    requires Fresh(original) && Legal(Start(original, locks), events)
      && Asked(After(Start(original, locks), events), tab)
    requires Legal(Apply(After(Start(original, locks), events), Answered(tab, Refused(StateConflict))), more)
    requires Quiet(more, tab)
    ensures var t := After(Apply(After(Start(original, locks), events), Answered(tab, Refused(StateConflict))), more);
      && tab in t.runs && Enabled(t, Loaded(tab, true))
      && if NoteIdRead(t, tab).None? then MarksNext(Apply(t, Loaded(tab, true)), tab, Unsendable)
         else Reconciles(Apply(t, Loaded(tab, true)), tab)
  {
    hide Inv, MarksNext, Reconciles, Fresh;
    StartInv(original, locks);
    RunInv(Start(original, locks), events);
    var s := After(Start(original, locks), events);
    StepInv(s, Answered(tab, Refused(StateConflict)));
    var r := Apply(s, Answered(tab, Refused(StateConflict)));
    QuietKeeps(r, tab, more);
    ConflictReads(After(r, more), tab);
  }

  lemma ConflictReads(t: System, tab: Tab)
    requires Inv(t) && Fails(t, tab, StateConflict)
    ensures Enabled(t, Loaded(tab, true))
    ensures if NoteIdRead(t, tab).None? then MarksNext(Apply(t, Loaded(tab, true)), tab, Unsendable)
            else Reconciles(Apply(t, Loaded(tab, true)), tab)
  {
    hide Inv, MarksNext, Reconciles, RowRead;
    StepInv(t, Loaded(tab, true));
    var u := Apply(t, Loaded(tab, true));
    if NoteIdRead(t, tab).None? {
      MarkingMarks(u, tab);
    } else {
      QueryReconciles(u, tab);
    }
  }

  // --------------------------------------------------------------- on the way

  /** The draft a run works on after its first read. */
  function DraftRead(s: System, tab: Tab): Draft
    requires tab in s.runs
  {
    if RowRead(s).Some? then RowRead(s).value else DraftOf(s.runs[tab])
  }

  /** The first read: if it fails, or the note is final, the run ends and nothing else changes; a photo note without a
      media id asks the photo store; any other note sends its creation. */
  lemma FirstRead(s: System, tab: Tab)
    requires Inv(s) && tab in s.runs && s.runs[tab].Loading?
    ensures Enabled(s, Loaded(tab, false)) && Apply(s, Loaded(tab, false)) == s.(runs := s.runs - {tab})
    ensures Enabled(s, Loaded(tab, true))
    ensures var d, t := DraftRead(s, tab), Apply(s, Loaded(tab, true));
      if d.state.Received? || d.state.Unsendable? then t == s.(runs := s.runs - {tab})
      else if d.target.Photo? && d.target.mediaId in {None, Some("")} then
        t == s.(runs := s.runs[tab := ResolvingPhoto(d)])
      else t == s.(runs := s.runs[tab := Creating(d)], creates := s.creates + {BodyOf(d)})
  {
    ReadIsWhole(s, tab);
    hide Inv, RowRead, BodyOf;
    if DraftRead(s, tab).target.Photo? {
      EmptyText(DraftRead(s, tab).target.mediaId);
    }
  }

  lemma EmptyText(text: Option<string>)
    ensures Truthy(text) <==> text !in {None, Some("")}
  {
  }

  lemma ReadIsWhole(s: System, tab: Tab)
    requires Inv(s) && tab in s.runs && s.runs[tab].Loading?
    ensures var d := DraftRead(s, tab);
      d.state.PendingUpload? || d.state.Failed? ==> d.audio.Some? && |d.audio.value| == d.meta.sizeBytes
  {
    if RowRead(s).Some? {
      RowReadOk(s);
    }
  }

  /** The create request names the note, its photo by media id, or its stretch of video. */
  lemma BodyMeans(d: Draft)
    ensures BodyOf(d).meta == d.meta
    ensures d.target.Photo? ==> BodyOf(d).photoMediaId == d.target.mediaId && BodyOf(d).video == None
    ensures d.target.Video? ==> BodyOf(d).photoMediaId == None && BodyOf(d).video == Some(d.target)
  {
  }

  /** The photo store answers: a missing photo marks the note, one that is not ready ends the run, and a ready one gives
      the media id that is written to the row before the creation is sent. */
  lemma PhotoAnswer(s: System, tab: Tab, ok: bool)
    requires Inv(s) && tab in s.runs && s.runs[tab].ResolvingPhoto?
    ensures Enabled(s, PhotoRead(tab, ok))
    ensures var d, t := s.runs[tab].draft, Apply(s, PhotoRead(tab, ok));
      match Resolved(d, if ok then Some(s.photos) else None)
      case PhotoGone => MarksNext(t, tab, Unsendable)
      case PhotoNotReady => t == s.(runs := s.runs - {tab})
      case PhotoReady(mediaId) =>
        d.target.Photo? ==>
          t == s.(runs := s.runs[tab := PersistingTarget(d.(target := d.target.(mediaId := Some(mediaId))))])
  {
    hide Inv, Resolved, MarksNext;
    StepInv(s, PhotoRead(tab, ok));
    if Resolved(s.runs[tab].draft, PhotosSeen(s, ok)).PhotoGone? {
      MarkingMarks(Apply(s, PhotoRead(tab, ok)), tab);
    }
  }

  /** The media id is stored, and only then the creation is sent; when it cannot be stored the run ends. */
  lemma TargetWritten(s: System, tab: Tab)
    requires Inv(s) && tab in s.runs && s.runs[tab].PersistingTarget?
    ensures Enabled(s, Committed(tab, true)) && Enabled(s, Committed(tab, false))
    ensures Apply(s, Committed(tab, false)) == s.(runs := s.runs - {tab})
    ensures var d, t := s.runs[tab].draft, Apply(s, Committed(tab, true));
      && tab in t.runs && t.runs[tab] == Creating(d) && t.creates == s.creates + {BodyOf(d)}
      && (s.row.Some? ==> t.row.Some? && t.row.value.target == d.target)
  {
    if s.row.Some? {
      SameResponsibility(s, tab);
    }
    hide Inv, BodyOf;
  }

  /** The creation is answered with the note id, which is stored before the bytes are sent. */
  lemma CreationAnswered(s: System, tab: Tab)
    requires Inv(s) && tab in s.runs && s.runs[tab].Creating?
    ensures Enabled(s, Answered(tab, Done)) <==> !s.server.status.NoNote?
    ensures !s.server.status.NoNote? ==>
      Apply(s, Answered(tab, Done)) == s.(runs := s.runs[tab := PersistingNote(s.runs[tab].draft, s.server.noteId)])
  {
    OwnNoteId(s, tab);
    hide Inv;
  }

  lemma OwnNoteId(s: System, tab: Tab)
    requires Inv(s) && tab in s.runs
    ensures DraftOf(s.runs[tab]).noteId.Some? ==> DraftOf(s.runs[tab]).noteId.value == s.server.noteId
  {
  }

  lemma NoteIdWritten(s: System, tab: Tab)
    requires Inv(s) && tab in s.runs && s.runs[tab].PersistingNote?
    ensures Enabled(s, Committed(tab, true)) && s.runs[tab].draft.audio == s.original.audio
    ensures var d, t := s.runs[tab].draft, Apply(s, Committed(tab, true));
      && tab in t.runs && t.runs[tab] == Putting(d, s.runs[tab].noteId)
      && t.puts == s.puts + {s.original.audio.value} && t.creates == s.creates
      && (s.row.Some? ==> t.row.Some? && t.row.value.state.PendingUpload?)
      && (s.row.Some? ==> t.row.value.noteId == Some(s.runs[tab].noteId))
  {
    if s.row.Some? {
      SameResponsibility(s, tab);
    }
    WholeAudio(s, tab);
    hide Inv;
  }

  lemma WholeAudio(s: System, tab: Tab)
    requires Inv(s) && tab in s.runs && s.runs[tab].PersistingNote?
    ensures s.runs[tab].draft.audio == s.original.audio && s.original.audio.Some?
  {
  }

  /** The stored bytes are completed, and a completed note is written down as received. */
  lemma BytesAnswered(s: System, tab: Tab)
    requires Inv(s) && tab in s.runs && (s.runs[tab].Putting? || s.runs[tab].Completing?)
    ensures s.runs[tab].Putting? ==>
      && Enabled(s, Answered(tab, Done))
      && Apply(s, Answered(tab, Done)) ==
           s.(runs := s.runs[tab := Completing(s.runs[tab].draft, s.runs[tab].noteId)], completes := true)
    ensures s.runs[tab].Completing? ==>
      && (Enabled(s, Answered(tab, Done)) <==> Past(s.server))
      && (Past(s.server) ==> ReceivesNext(Apply(s, Answered(tab, Done)), tab, Failed))
  {
    hide Inv, ReceivesNext;
    if s.runs[tab].Completing? && Past(s.server) {
      StepInv(s, Answered(tab, Done));
      ReceiptReceives(Apply(s, Answered(tab, Done)), tab);
    }
  }

  // ------------------------------------------------------------ why FAILED

  /** The last thing that happened to the present run of this tab, apart from reading the row again, was a failure for
      the moment. */
  ghost predicate LastFailed(start: System, events: seq<Event>, tab: Tab)
    decreases |events|
  {
    if events == [] then false
    else
      var earlier, e := events[..|events| - 1], events[|events| - 1];
      Legal(start, earlier) &&
      if !Acts(tab, e) || e == Loaded(tab, true) then LastFailed(start, earlier, tab)
      else FailsForNow(After(start, earlier), tab, e)
  }

  /** A run that may still mark the note FAILED. */
  predicate MayFail(await: Await) {
    await.MarkingFailed? || (await.Recovering? && await.failure.Transient?)
  }

  lemma LastFailedOneMore(start: System, events: seq<Event>, tab: Tab, e: Event)
    requires Legal(start, events)
    requires if !Acts(tab, e) || e == Loaded(tab, true) then LastFailed(start, events, tab)
             else FailsForNow(After(start, events), tab, e)
    ensures LastFailed(start, events + [e], tab)
  {
    assert (events + [e])[..|events|] == events;
  }

  lemma MayFailLoaded(s: System, ok: bool, tab: Tab)
    requires Enabled(s, Loaded(tab, ok))
    requires tab in Apply(s, Loaded(tab, ok)).runs && MayFail(Apply(s, Loaded(tab, ok)).runs[tab])
    ensures ok && MayFail(s.runs[tab])
  {
    hide Resume, RowRead;
    var latest := DraftRead(s, tab);
    ResumeFrame(s, tab, None);
    ResumeFrame(s, tab, AfterLoad(latest));
    if s.runs[tab].Recovering? {
      ResumeFrame(s, tab, Some(AfterRecovery(latest, s.runs[tab].failure)));
    }
  }

  lemma MayFailWritten(s: System, ok: bool, tab: Tab)
    requires Enabled(s, Committed(tab, ok))
    requires tab in Apply(s, Committed(tab, ok)).runs && MayFail(Apply(s, Committed(tab, ok)).runs[tab])
    ensures FailsForNow(s, tab, Committed(tab, ok))
  {
    hide Resume, WriteRow, Written;
    ResumeFrame(if ok then WriteRow(s, Written(s.runs[tab])) else s, tab, AfterWrite(s.runs[tab], ok));
  }

  lemma MayFailAnswered(s: System, reply: Reply, tab: Tab)
    requires Inv(s) && Enabled(s, Answered(tab, reply))
    requires tab in Apply(s, Answered(tab, reply)).runs && MayFail(Apply(s, Answered(tab, reply)).runs[tab])
    ensures FailsForNow(s, tab, Answered(tab, reply))
  {
    OwnNoteId(s, tab);
    hide Resume, Inv;
    ResumeFrame(s, tab, AfterReply(s, s.runs[tab], reply));
  }

  lemma MayFailPhoto(s: System, ok: bool, tab: Tab)
    requires Enabled(s, PhotoRead(tab, ok)) && tab in Apply(s, PhotoRead(tab, ok)).runs
    ensures !MayFail(Apply(s, PhotoRead(tab, ok)).runs[tab])
  {
    hide Resume, Resolved;
    var draft := s.runs[tab].draft;
    ResumeFrame(s, tab, AfterPhoto(draft, Resolved(draft, PhotosSeen(s, ok))));
  }

  /** How a run comes to that. */
  lemma MayFailStep(s: System, e: Event, tab: Tab)
    requires Inv(s) && Enabled(s, e) && Acts(tab, e) && tab in Apply(s, e).runs && MayFail(Apply(s, e).runs[tab])
    ensures tab in s.runs
    ensures (e == Loaded(tab, true) && MayFail(s.runs[tab])) || (e != Loaded(tab, true) && FailsForNow(s, tab, e))
  {
    BeginsInnocent(s, e, tab);
    hide Inv, Apply, MayFail, FailsForNow, Truthful;
    match e {
      case Loaded(_, ok) => MayFailLoaded(s, ok, tab);
      case PhotoRead(_, ok) => MayFailPhoto(s, ok, tab);
      case Committed(_, ok) => MayFailWritten(s, ok, tab);
      case Answered(_, reply) => MayFailAnswered(s, reply, tab);
      case _ =>
    }
  }

  lemma BeginsInnocent(s: System, e: Event, tab: Tab)
    requires Enabled(s, e) && Acts(tab, e) && tab in Apply(s, e).runs && MayFail(Apply(s, e).runs[tab])
    ensures !e.Begin? && !e.Crash?
  {
    hide Resume, Truthful;
  }

  lemma {:induction false} MayFailHasCause(start: System, events: seq<Event>, tab: Tab)
    requires Inv(start) && start.runs == map[] && Legal(start, events)
    requires tab in After(start, events).runs && MayFail(After(start, events).runs[tab])
    ensures LastFailed(start, events, tab)
    decreases |events|
  {
    hide Inv, MayFail, Apply, Enabled, FailsForNow, Acts;
    if events != [] {
      LastStep(start, events);
      var earlier, e := events[..|events| - 1], events[|events| - 1];
      assert events == earlier + [e];
      var s := After(start, earlier);
      RunInv(start, earlier);
      if !Acts(tab, e) {
        OthersLeaveTheRun(s, tab, e);
        MayFailHasCause(start, earlier, tab);
      } else {
        MayFailStep(s, e, tab);
        if e == Loaded(tab, true) {
          MayFailHasCause(start, earlier, tab);
        }
      }
      LastFailedOneMore(start, earlier, tab, e);
    }
  }

  predicate IsFailed(s: System) {
    s.row.Some? && s.row.value.state.Failed?
  }

  /** The step that makes a row FAILED is a committed write: the marking write of a run whose last failure was one for
      the moment, or a media id stored with a note that was FAILED when it was read. */
  lemma FailedHasCause(original: Draft, locks: bool, events: seq<Event>, e: Event)
    requires Fresh(original) && Legal(Start(original, locks), events)
      && Enabled(After(Start(original, locks), events), e)
    requires !IsFailed(After(Start(original, locks), events))
      && IsFailed(Apply(After(Start(original, locks), events), e))
    ensures var s := After(Start(original, locks), events);
      && e.Committed? && e.ok && e.tab in s.runs
      && (|| (s.runs[e.tab].MarkingFailed? && LastFailed(Start(original, locks), events, e.tab))
          || (s.runs[e.tab].PersistingTarget? && s.runs[e.tab].draft.state.Failed?))
  {
    hide Fresh, LastFailed;
    StartInv(original, locks);
    RunInv(Start(original, locks), events);
    var s := After(Start(original, locks), events);
    OnlyMarkingFails(s, e);
    if s.runs[e.tab].MarkingFailed? {
      MayFailHasCause(Start(original, locks), events, e.tab);
    }
  }

  lemma OnlyMarkingFails(s: System, e: Event)
    requires Inv(s) && Enabled(s, e) && !IsFailed(s) && IsFailed(Apply(s, e))
    ensures e.Committed? && e.ok && e.tab in s.runs
    ensures s.runs[e.tab].MarkingFailed? || (s.runs[e.tab].PersistingTarget? && s.runs[e.tab].draft.state.Failed?)
  {
    hide Inv, Apply, Truthful;
    Effect(s, e);
  }

  /** With Web Locks nothing else does: a note becomes FAILED only by the marking write of a run that failed last. */
  lemma FailedHasCauseUnderLock(original: Draft, events: seq<Event>, e: Event)
    requires Fresh(original) && Legal(Start(original, true), events) && Enabled(After(Start(original, true), events), e)
    requires !IsFailed(After(Start(original, true), events)) && IsFailed(Apply(After(Start(original, true), events), e))
    ensures e.Committed? && e.ok && After(Start(original, true), events).runs[e.tab].MarkingFailed?
    ensures LastFailed(Start(original, true), events, e.tab)
  {
    hide Fresh, LastFailed, Apply;
    FailedHasCause(original, true, events, e);
    UploadLock.StartLockInv(original);
    UploadLock.RunLock(Start(original, true), events);
    NoStaleState(After(Start(original, true), events), e);
  }

  lemma NoStaleState(s: System, e: Event)
    requires UploadLock.LockInv(s) && Enabled(s, e) && e.Committed? && !IsFailed(s) && IsFailed(Apply(s, e))
    ensures !(s.runs[e.tab].PersistingTarget? && s.runs[e.tab].draft.state.Failed?)
  {
    hide Inv, Apply, Truthful, UploadLock.BodyIs;
    Effect(s, e);
  }
}
