/** Runs, for every fresh note, that show what the upload protocol does not promise. */
module UploadWitnesses {
  import opened Options
  import opened AudioDrafts
  import opened UploadProtocol
  import opened UploadSafety
  import CaptureAnswers
  import UploadLock

  /** The events lead from the freshly saved note to s. */
  predicate Leads(note: Draft, locks: bool, events: seq<Event>, s: System) {
    Fresh(note) && Legal(Start(note, locks), events) && s == After(Start(note, locks), events)
  }

  lemma Then(note: Draft, locks: bool, events: seq<Event>, s: System, e: Event) returns (longer: seq<Event>, t: System)
    requires Leads(note, locks, events, s) && Enabled(s, e)
    ensures longer == events + [e] && t == Apply(s, e) && Leads(note, locks, longer, t)
  {
    LegalAppend(Start(note, locks), events, e);
    longer, t := events + [e], Apply(s, e);
  }

  function Identified(note: Draft): Draft {
    note.(noteId := Some("id"))
  }

  predicate NeedsPhoto(note: Draft) {
    note.target.Photo? && !Truthy(note.target.mediaId)
  }

  /** The note as it is sent: a photo note without a media id gets the one of its photo. */
  function Sent(note: Draft): Draft {
    if NeedsPhoto(note) then WithMedia(note, "media") else note
  }

  /** The note as it is sent, with the id the server gave it. */
  function Named(note: Draft): Draft {
    Identified(Sent(note))
  }

  function PhotoOf(note: Draft): PhotoDraft
    requires NeedsPhoto(note)
  {
    PhotoDraft(if note.target.photoDraftId.Some? then note.target.photoDraftId.value else "",
               CaptureAnswers.MediaDraft(note.meta.requirementKey, Some("media"), CaptureAnswers.Ready, true, [true]))
  }

  lemma FreshFacts(note: Draft)
    requires Fresh(note)
    ensures note.state.PendingUpload? && note.noteId.None? && note.audio.Some?
    ensures Restore(Stored(note)) == Some(note)
    ensures AfterLoad(note) == Some(if NeedsPhoto(note) then ResolvingPhoto(note) else Creating(note))
  {
  }

  lemma SentFacts(note: Draft)
    requires Fresh(note)
    ensures Sent(note).meta == note.meta && Sent(note).audio == note.audio && Sent(note).noteId.None?
    ensures Sent(note).state.PendingUpload?
    ensures Restore(Stored(Named(note))) == Some(Named(note))
    ensures AfterLoad(Named(note)) == Some(Creating(Named(note)))
  {
  }

  /** One tab is about to create the note, whose target is complete. */
  predicate AtCreation(s: System, note: Draft, locks: bool) {
    && s.original == note && s.locks == locks && !s.discarded && s.known == {note}
    && s.row == Some(Stored(Sent(note)))
    && s.runs == map[0 := Creating(Sent(note))] && s.creates == {BodyOf(Sent(note))}
    && s.server == Server(NoNote, "", None) && s.puts == {} && s.stored == None
  }

  lemma ReachCreation(note: Draft, locks: bool) returns (events: seq<Event>, s: System)
    requires Fresh(note)
    ensures Leads(note, locks, events, s) && AtCreation(s, note, locks)
  {
    FreshFacts(note);
    events, s := [], Start(note, locks);
    assert Leads(note, locks, events, s);
    if NeedsPhoto(note) {
      events, s := ReachCreationOfPhotoNote(note, locks);
    } else {
      hide Leads, Fresh, Restore, AfterLoad, BodyOf;
      events, s := Then(note, locks, events, s, Begin(0, note));
      events, s := Then(note, locks, events, s, Loaded(0, true));
      assert s.runs == map[0 := Creating(note)] && s.creates == {BodyOf(note)};
    }
  }

  lemma PhotoFacts(note: Draft)
    requires Fresh(note) && NeedsPhoto(note)
    ensures Resolved(note, Some([PhotoOf(note)])) == PhotoReady("media")
    ensures Merge(Stored(note), Sent(note)) == Stored(Sent(note))
    ensures Some(PhotoOf(note).id) == note.target.photoDraftId && CaptureAnswers.IsReady(PhotoOf(note).media)
  {
  }

  /** One tab looks for the photo of the note, which the store holds, ready. */
  predicate Looking(s: System, note: Draft, locks: bool) {
    && NeedsPhoto(note)
    && s == Start(note, locks).(photos := [PhotoOf(note)], runs := map[0 := ResolvingPhoto(note)])
  }

  lemma ReachLooking(note: Draft, locks: bool) returns (events: seq<Event>, s: System)
    requires Fresh(note) && NeedsPhoto(note)
    ensures Leads(note, locks, events, s) && Looking(s, note, locks)
    ensures forall e | e in events :: !e.Answered? && !e.PhotoRead?
  {
    FreshFacts(note);
    events, s := [], Start(note, locks);
    assert Leads(note, locks, events, s);
    hide Leads, Fresh, Restore, AfterLoad, PhotoOf;
    events, s := Then(note, locks, events, s, PhotosChange([PhotoOf(note)]));
    events, s := Then(note, locks, events, s, Begin(0, note));
    events, s := Then(note, locks, events, s, Loaded(0, true));
  }

  lemma ReachCreationOfPhotoNote(note: Draft, locks: bool) returns (events: seq<Event>, s: System)
    requires Fresh(note) && NeedsPhoto(note)
    ensures Leads(note, locks, events, s) && AtCreation(s, note, locks)
  {
    PhotoFacts(note);
    events, s := ReachLooking(note, locks);
    hide Leads, Fresh, Restore, BodyOf, Merge, Resolved, PhotoOf;
    events, s := Then(note, locks, events, s, PhotoRead(0, true));
    assert s.runs == map[0 := PersistingTarget(Sent(note))];
    events, s := Then(note, locks, events, s, Committed(0, true));
    assert s.runs == map[0 := Creating(Sent(note))] && s.creates == {BodyOf(Sent(note))};
  }

  /** One tab has created the note on the server and stored its id, and is sending the bytes. */
  predicate Sending(s: System, note: Draft, locks: bool) {
    && s.original == note && s.locks == locks && !s.discarded && s.known == {note}
    && s.row == Some(Stored(Named(note)))
    && s.runs == map[0 := Putting(Sent(note), "id")]
    && s.server == Server(Uploading, "id", None)
    && note.audio.Some? && s.puts == {note.audio.value} && s.stored == None
  }

  lemma ReachSending(note: Draft, locks: bool) returns (events: seq<Event>, s: System)
    requires Fresh(note)
    ensures Leads(note, locks, events, s) && Sending(s, note, locks)
  {
    FreshFacts(note);
    hide Leads, Fresh, Restore, AfterLoad, BodyOf, Sent, AtCreation, Created;
    events, s := ReachCreation(note, locks);
    events, s := Create(note, locks, events, s);
    events, s := StoreNoteId(note, locks, events, s);
  }

  /** The server has answered the creation and the tab writes the note id down. */
  predicate Created(s: System, note: Draft, locks: bool) {
    && s.original == note && s.locks == locks && !s.discarded && s.known == {note}
    && s.row == Some(Stored(Sent(note)))
    && s.runs == map[0 := PersistingNote(Sent(note), "id")]
    && s.server == Server(Uploading, "id", None) && s.puts == {} && s.stored == None
  }

  lemma Create(note: Draft, locks: bool, before: seq<Event>, ready: System) returns (events: seq<Event>, s: System)
    requires Leads(note, locks, before, ready) && AtCreation(ready, note, locks)
    ensures Leads(note, locks, events, s) && Created(s, note, locks)
  {
    SentFacts(note);
    hide Leads, Fresh, Restore, AfterLoad, BodyOf, Sent;
    events, s := Then(note, locks, before, ready, ServerCreates(BodyOf(Sent(note)), "id"));
    events, s := Then(note, locks, events, s, Answered(0, Done));
  }

  lemma StoreNoteId(note: Draft, locks: bool, before: seq<Event>, created: System)
    returns (events: seq<Event>, s: System)
    requires Leads(note, locks, before, created) && Created(created, note, locks) && note.audio.Some?
    ensures Leads(note, locks, events, s) && Sending(s, note, locks)
  {
    SentFacts(note);
    hide Leads, Fresh, Restore, AfterLoad, BodyOf, Sent;
    events, s := Then(note, locks, before, created, Committed(0, true));
  }

  /** Even under the lock, an undiscarded note can lose its audio: the tab stops after the server created the note, the
      server expires it without audio, the next attempt is refused for its state, and the query's answer, a status
      that is not UPLOADING, is taken for a receipt. */
  lemma ExpiredNoteLosesAudio(note: Draft, locks: bool) returns (events: seq<Event>)
    requires Fresh(note)
    ensures Legal(Start(note, locks), events)
    ensures var s := After(Start(note, locks), events);
      !Preserved(s) && !s.discarded && s.row.Some? && s.row.value.state.Received? && s.server.held == None
  {
    var s: System;
    FreshFacts(note);
    SentFacts(note);
    events, s := ReachSending(note, locks);
    events, s := Then(note, locks, events, s, Crash(0));
    events, s := Then(note, locks, events, s, ServerEnds);
    events, s := RetryAfterExpiry(note, locks, events, s);
    events, s := QueryAfterExpiry(note, locks, events, s);
    events, s := ReconcileAfterExpiry(note, locks, events, s);
  }

  /** In every run, with a server that may end the note or one that never does, the audio is preserved or discarded. */
  ghost predicate NeverLost(note: Draft, locks: bool, mayEnd: bool) {
    forall events | Legal(Start(note, locks), events) && (mayEnd || ServerEnds !in events) ::
      Preserved(After(Start(note, locks), events)) || After(Start(note, locks), events).discarded
  }

  /** Over all runs of any fresh note, with or without locks, no audio is lost exactly when the server never ends a note
      that it has not received. */
  lemma NeverLostIffNeverEnded(note: Draft, locks: bool, mayEnd: bool)
    requires Fresh(note)
    ensures NeverLost(note, locks, mayEnd) <==> !mayEnd
  {
    hide Fresh, Apply, Enabled, Preserved;
    if mayEnd {
      var events := ExpiredNoteLosesAudio(note, locks);
    } else {
      forall events | Legal(Start(note, locks), events) && ServerEnds !in events
        ensures Preserved(After(Start(note, locks), events)) || After(Start(note, locks), events).discarded
      {
        NoLossWithoutExpiry(note, locks, events);
      }
    }
  }

  /** The server has ended the note without its audio, which is still in the row. */
  predicate Expired(s: System, note: Draft) {
    && s.original == note && !s.discarded && s.known == {note}
    && s.row == Some(Stored(Named(note))) && s.server == Server(Ended, "id", None)
  }

  lemma RetryAfterExpiry(note: Draft, locks: bool, before: seq<Event>, expired: System)
    returns (events: seq<Event>, s: System)
    requires Leads(note, locks, before, expired) && Expired(expired, note) && expired.runs == map[]
    ensures Leads(note, locks, events, s) && Expired(s, note) && s.runs == map[0 := Creating(Named(note))]
  {
    FreshFacts(note);
    SentFacts(note);
    hide Leads, Fresh, Restore, AfterLoad;
    events, s := Then(note, locks, before, expired, Begin(0, note));
    events, s := Then(note, locks, events, s, Loaded(0, true));
  }

  lemma QueryAfterExpiry(note: Draft, locks: bool, before: seq<Event>, retried: System)
    returns (events: seq<Event>, s: System)
    requires Leads(note, locks, before, retried) && Expired(retried, note)
      && retried.runs == map[0 := Creating(Named(note))]
    ensures Leads(note, locks, events, s) && Expired(s, note) && s.runs == map[0 := Querying(Named(note))]
  {
    FreshFacts(note);
    SentFacts(note);
    hide Leads, Fresh, Restore, AfterLoad, BodyOf;
    events, s := Then(note, locks, before, retried, Answered(0, Refused(StateConflict)));
    assert s == retried.(runs := map[0 := Recovering(Named(note), StateConflict)]);
    events, s := Then(note, locks, events, s, Loaded(0, true));
  }

  lemma ReconcileAfterExpiry(note: Draft, locks: bool, before: seq<Event>, querying: System)
    returns (events: seq<Event>, s: System)
    requires Leads(note, locks, before, querying) && Expired(querying, note)
      && querying.runs == map[0 := Querying(Named(note))]
    requires note.audio.Some?
    ensures Leads(note, locks, events, s)
    ensures !Preserved(s) && !s.discarded && s.row.Some? && s.row.value.state.Received? && s.server.held == None
  {
    hide Leads, Fresh, Restore, AfterLoad, BodyOf;
    events, s := Then(note, locks, before, querying, Answered(0, Done));
    assert s == querying.(runs := map[0 := WritingReconciled(Named(note))]);
    events, s := Then(note, locks, events, s, Committed(0, true));
  }

  /** Without Web Locks RECEIVED is not final: a second tab whose request failed writes FAILED over the receipt. */
  lemma ReceivedIsOverwrittenWithoutLocks(note: Draft) returns (events: seq<Event>, last: Event)
    requires Fresh(note)
    ensures Legal(Start(note, false), events)
    ensures var s := After(Start(note, false), events);
      && s.row.Some? && s.row.value.state.Received?
      && Enabled(s, last) && Apply(s, last).row.Some? && Apply(s, last).row.value.state.Failed?
  {
    var s: System;
    FreshFacts(note);
    SentFacts(note);
    events, s := ReachSending(note, false);
    events, s := StartSecondTab(note, events, s);
    events, s := SendInOneTab(note, events, s);
    events, s := ReceiveInOneTab(note, events, s);
    events, s := FailInTheOther(note, events, s);
    last := Committed(1, true);
  }

  lemma StartSecondTab(note: Draft, before: seq<Event>, sending: System) returns (events: seq<Event>, s: System)
    requires Leads(note, false, before, sending) && Sending(sending, note, false)
    ensures Leads(note, false, events, s) && note.audio.Some?
    ensures s == sending.(runs := map[0 := Putting(Sent(note), "id"), 1 := Creating(Named(note))], creates := s.creates)
  {
    FreshFacts(note);
    SentFacts(note);
    hide Leads, Fresh, Restore, AfterLoad;
    events, s := Then(note, false, before, sending, Begin(1, note));
    events, s := Then(note, false, events, s, Loaded(1, true));
  }

  lemma SendInOneTab(note: Draft, before: seq<Event>, sending: System) returns (events: seq<Event>, s: System)
    requires Leads(note, false, before, sending)
      && Sending(sending.(runs := map[0 := Putting(Sent(note), "id")]), note, false)
    requires sending.runs == map[0 := Putting(Sent(note), "id"), 1 := Creating(Named(note))]
    ensures Leads(note, false, events, s)
    ensures s == sending.(runs := map[0 := Completing(Sent(note), "id"), 1 := Creating(Named(note))],
                          completes := true, stored := note.audio)
  {
    hide Leads, Fresh, Restore, AfterLoad, BodyOf;
    events, s := Then(note, false, before, sending, ServerStores(note.audio.value));
    events, s := Then(note, false, events, s, Answered(0, Done));
  }

  lemma ReceiveInOneTab(note: Draft, before: seq<Event>, sent: System) returns (events: seq<Event>, s: System)
    requires Leads(note, false, before, sent) && note.audio.Some? && sent.completes && sent.stored == note.audio
    requires sent.row == Some(Stored(Named(note))) && sent.server == Server(Uploading, "id", None)
    requires sent.runs == map[0 := Completing(Sent(note), "id"), 1 := Creating(Named(note))]
    ensures Leads(note, false, events, s)
    ensures s.row == Some(Record(note.meta, Sent(note).target, Received, None, Some("id")))
    ensures s.runs == map[1 := Creating(Named(note))]
  {
    hide Leads, Fresh, Restore, AfterLoad, BodyOf;
    events, s := Then(note, false, before, sent, ServerCompletes);
    events, s := Then(note, false, events, s, Answered(0, Done));
    assert s.runs == map[0 := WritingReceipt(Sent(note), "id"), 1 := Creating(Named(note))];
    events, s := Then(note, false, events, s, Committed(0, true));
  }

  lemma FailInTheOther(note: Draft, before: seq<Event>, received: System) returns (events: seq<Event>, s: System)
    requires Leads(note, false, before, received)
    requires received.row == Some(Record(note.meta, Sent(note).target, Received, None, Some("id")))
    requires received.runs == map[1 := Creating(Named(note))]
    ensures Leads(note, false, events, s) && s.row == received.row
    ensures 1 in s.runs && s.runs[1].MarkingFailed? && s.runs[1].draft.meta == note.meta
  {
    events, s := Then(note, false, before, received, Answered(1, Refused(Transient)));
    assert s.runs == map[1 := Recovering(Named(note), Transient)];
    hide Leads, Fresh, AfterLoad;
    events, s := Then(note, false, events, s, Loaded(1, true));
  }

  /** A RECEIVED row stays as it is, for as long as the row exists. */
  ghost predicate ReceivedIsFinal(note: Draft, locks: bool) {
    forall events, more | Legal(Start(note, locks), events) && Legal(After(Start(note, locks), events), more) ::
      var s, t := After(Start(note, locks), events), After(After(Start(note, locks), events), more);
      s.row.Some? && s.row.value.state.Received? && t.row.Some? ==> t.row == s.row
  }

  /** Over all runs of any fresh note, RECEIVED is final exactly when the browser has Web Locks. */
  lemma ReceivedIsFinalIffLocks(note: Draft, locks: bool)
    requires Fresh(note)
    ensures ReceivedIsFinal(note, locks) <==> locks
  {
    hide Fresh, Apply, Enabled;
    if locks {
      forall events, more | Legal(Start(note, locks), events) && Legal(After(Start(note, locks), events), more)
        ensures var s, t := After(Start(note, locks), events), After(After(Start(note, locks), events), more);
          s.row.Some? && s.row.value.state.Received? && t.row.Some? ==> t.row == s.row
      {
        FinalStays(note, events, more);
      }
    } else {
      var events, last := ReceivedIsOverwrittenWithoutLocks(note);
      OneStep(After(Start(note, false), events), last);
    }
  }

  lemma FinalStays(note: Draft, events: seq<Event>, more: seq<Event>)
    requires Fresh(note) && Legal(Start(note, true), events) && Legal(After(Start(note, true), events), more)
    ensures var s, t := After(Start(note, true), events), After(After(Start(note, true), events), more);
      s.row.Some? && UploadLock.Final(s.row.value.state) && t.row.Some? ==> t.row == s.row
  {
    hide Fresh, Apply, Enabled, UploadLock.LockInv;
    UploadLock.StartLockInv(note);
    UploadLock.RunLock(Start(note, true), events);
    if After(Start(note, true), events).row.Some? {
      UploadLock.FinalStatesStay(After(Start(note, true), events), more);
    }
  }

  lemma OneStep(s: System, e: Event)
    requires Enabled(s, e)
    ensures Legal(s, [e]) && After(s, [e]) == Apply(s, e)
  {
    assert [e][1..] == [];
  }

  /** For every fresh photo note without a media id: its photo is in the store, ready, and yet one failed read of the
      store makes the note UNSENDABLE before the server ever hears of it; under the lock it stays so for good. */
  lemma UnreadPhotoCondemnsNote(note: Draft, locks: bool) returns (events: seq<Event>)
    requires Fresh(note) && NeedsPhoto(note)
    ensures Legal(Start(note, locks), events)
    ensures var s := After(Start(note, locks), events);
      && (exists photo | photo in s.photos ::
        Some(photo.id) == note.target.photoDraftId && CaptureAnswers.IsReady(photo.media))
      && s.row.Some? && s.row.value.state.Unsendable? && s.server.status.NoNote? && s.creates == {}
    ensures forall e | e in events :: !e.Answered? && (e.PhotoRead? ==> !e.ok)
    ensures locks ==> forall more | Legal(After(Start(note, locks), events), more) ::
      var t := After(After(Start(note, locks), events), more);
      t.row.Some? ==> t.row.value.state.Unsendable?
  {
    PhotoFacts(note);
    var s: System;
    events, s := ReachLooking(note, locks);
    events, s := Then(note, locks, events, s, PhotoRead(0, false));
    assert s.runs == map[0 := MarkingUnsendable(note)];
    events, s := Then(note, locks, events, s, Committed(0, true));
    assert PhotoOf(note) in s.photos;
    if locks {
      forall more | Legal(After(Start(note, locks), events), more)
        ensures var t := After(After(Start(note, locks), events), more); t.row.Some? ==> t.row.value.state.Unsendable?
      {
        FinalStays(note, events, more);
      }
    }
  }
}
