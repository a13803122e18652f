/** The uploader as it is written, from call to return, proved to take only steps of the upload protocol. */
module Uploader {
  import opened Options
  import opened AudioDrafts
  import opened UploadProtocol
  import opened UploadSafety
  import opened UploadOutcomes
  import CaptureAnswers

  /** What one call meets at its awaits, and what everybody else does meanwhile. */
  datatype Script = Script(
    loads: bool,
    photosRead: bool,
    targetCommits: bool,
    create: Reply,
    noteCommits: bool,
    put: Reply,
    complete: Reply,
    receiptCommits: bool,
    reloads: bool,
    query: Reply,
    reconciledCommits: bool,
    markCommits: bool,
    others: nat -> seq<Event>)

  datatype Result = Returned(draft: Draft) | Threw

  /** What a call returns or throws when this event ends its run. */
  function Settles(s: System, tab: Tab, e: Event): Result {
    if tab !in s.runs then Threw
    else
      match s.runs[tab]
      case Loading(source) =>
        var latest := if RowRead(s).Some? then RowRead(s).value else source;
        if e == Loaded(tab, true) && latest.state.Received? then Returned(latest) else Threw
      case ResolvingPhoto(draft) => Returned(draft)
      case WritingReceipt(_, _) => Returned(Written(s.runs[tab]))
      case WritingReconciled(_) => Returned(Written(s.runs[tab]))
      case _ => Threw
  }

  /** A call joins the run of its own tab, finds the lock taken, or uploads. */
  datatype Call = Joined | LockTaken(result: Result) | Ran(result: Result)

  // What the protocol does with the answer that each kind of await waits for.

  lemma LoadedStep(s: System, tab: Tab, ok: bool)
    requires tab in s.runs && (s.runs[tab].Loading? || s.runs[tab].Recovering?)
    ensures Enabled(s, Loaded(tab, ok))
    ensures var latest := if RowRead(s).Some? then RowRead(s).value else DraftOf(s.runs[tab]);
      Apply(s, Loaded(tab, ok)) ==
        Resume(s, tab, if !ok then None
                       else if s.runs[tab].Loading? then AfterLoad(latest)
                       else Some(AfterRecovery(latest, s.runs[tab].failure)))
  {
    hide Resume, AfterLoad, AfterRecovery, RowRead;
  }

  lemma PhotoStep(s: System, tab: Tab, ok: bool)
    requires tab in s.runs && s.runs[tab].ResolvingPhoto?
    ensures Enabled(s, PhotoRead(tab, ok))
    ensures Apply(s, PhotoRead(tab, ok)) ==
      Resume(s, tab, AfterPhoto(s.runs[tab].draft, Resolved(s.runs[tab].draft, PhotosSeen(s, ok))))
  {
    hide Resume, AfterPhoto, Resolved;
  }

  lemma AnsweredStep(s: System, tab: Tab, reply: Reply)
    requires tab in s.runs && AwaitsReply(s.runs[tab]) && Truthful(s, s.runs[tab], reply)
    ensures Enabled(s, Answered(tab, reply))
    ensures Apply(s, Answered(tab, reply)) == Resume(s, tab, AfterReply(s, s.runs[tab], reply))
  {
    hide Resume, AfterReply, Truthful;
  }

  lemma CommittedStep(s: System, tab: Tab, ok: bool)
    requires tab in s.runs && AwaitsStore(s.runs[tab])
    ensures Enabled(s, Committed(tab, ok))
    ensures Apply(s, Committed(tab, ok)) ==
      Resume(if ok then WriteRow(s, Written(s.runs[tab])) else s, tab, AfterWrite(s.runs[tab], ok))
  {
    hide Resume, WriteRow, Written, AfterWrite;
  }

  /** What the script answers at the await where the run of this tab is suspended. */
  function Answer(s: System, tab: Tab, script: Script): Option<Event> {
    if tab !in s.runs then None
    else
      var await := s.runs[tab];
      Some(match await
           case Loading(_) => Loaded(tab, script.loads)
           case ResolvingPhoto(_) => PhotoRead(tab, script.photosRead)
           case PersistingTarget(_) => Committed(tab, script.targetCommits)
           case Creating(_) => Answered(tab, Heard(s, await, script.create))
           case PersistingNote(_, _) => Committed(tab, script.noteCommits)
           case Putting(_, _) => Answered(tab, Heard(s, await, script.put))
           case Completing(_, _) => Answered(tab, Heard(s, await, script.complete))
           case WritingReceipt(_, _) => Committed(tab, script.receiptCommits)
           case Recovering(_, _) => Loaded(tab, script.reloads)
           case Querying(_) => Answered(tab, Heard(s, await, script.query))
           case WritingReconciled(_) => Committed(tab, script.reconciledCommits)
           case MarkingUnsendable(_) => Committed(tab, script.markCommits)
           case MarkingFailed(_) => Committed(tab, script.markCommits))
  }

  /** From position `from` on, this tab did exactly what the script answers at each of its awaits, and never crashed. */
  ghost predicate Follows(start: System, trace: seq<Event>, from: nat, tab: Tab, script: Script) {
    forall k | from <= k < |trace| && Acts(tab, trace[k]) ::
      Legal(start, trace[..k]) && Answer(After(start, trace[..k]), tab, script) == Some(trace[k])
  }

  /** The last event ended the run of this tab with this result. */
  ghost predicate Ends(start: System, trace: seq<Event>, tab: Tab, result: Result) {
    && trace != [] && Legal(start, trace[..|trace| - 1]) && Acts(tab, trace[|trace| - 1])
    && result == Settles(After(start, trace[..|trace| - 1]), tab, trace[|trace| - 1])
  }

  lemma FollowsFurther(start: System, trace: seq<Event>, from: nat, tab: Tab, script: Script, e: Event)
    requires Legal(start, trace) && Follows(start, trace, from, tab, script)
    requires Acts(tab, e) ==> Answer(After(start, trace), tab, script) == Some(e)
    ensures Follows(start, trace + [e], from, tab, script)
  {
    hide Answer, Legal, After;
    var more := trace + [e];
    forall k | from <= k < |more| && Acts(tab, more[k])
      ensures Legal(start, more[..k]) && Answer(After(start, more[..k]), tab, script) == Some(more[k])
    {
      assert more[..k] == if k < |trace| then trace[..k] else trace;
    }
  }

  lemma NothingToFollow(start: System, trace: seq<Event>, tab: Tab, script: Script)
    ensures Follows(start, trace, |trace|, tab, script)
  {
  }

  lemma AnswersAct(s: System, tab: Tab, script: Script)
    requires Answer(s, tab, script).Some?
    ensures Acts(tab, Answer(s, tab, script).value)
  {
    hide Heard, Truthful;
  }

  lemma EndsNow(start: System, trace: seq<Event>, tab: Tab, e: Event)
    requires Legal(start, trace) && Acts(tab, e)
    ensures Ends(start, trace + [e], tab, Settles(After(start, trace), tab, e))
  {
    hide Settles, Legal, After;
    assert (trace + [e])[..|trace|] == trace;
  }

  /** The reply a run hears: only what the server did can succeed. */
  function Heard(s: System, await: Await, reply: Reply): (heard: Reply)
    ensures Truthful(s, await, heard)
  {
    if Truthful(s, await, reply) then reply else Refused(Transient)
  }

  /** One note with its row, its server entry and the runs of all tabs. */
  class Device {
    const original: Draft
    const locks: bool
    var row: Option<Record>
    var discarded: bool
    var known: set<Draft>
    var photos: seq<PhotoDraft>
    var runs: map<Tab, Await>
    var server: Server
    var stored: Option<Bytes>
    var creates: set<Body>
    var puts: set<Bytes>
    var completes: bool
    ghost var start: System
    ghost var trace: seq<Event>

    function Value(): System
      reads this
    {
      System(original, row, discarded, known, photos, locks, runs, server, stored, creates, puts, completes)
    }

    /** Everything so far was a run of the protocol. */
    ghost predicate Valid()
      reads this
    {
      Legal(start, trace) && Value() == After(start, trace)
    }

    /** And from position `from` on this tab acted as scripted. */
    ghost predicate Acting(from: nat, tab: Tab, script: Script)
      reads this
    {
      Valid() && Follows(start, trace, from, tab, script)
    }

    /** The call is over, with this result. */
    ghost predicate Over(from: nat, tab: Tab, script: Script, result: Result)
      reads this
    {
      Acting(from, tab, script) && tab !in runs && Ends(start, trace, tab, result)
    }

    constructor (original: Draft, locks: bool)
      ensures Valid() && Value() == Start(original, locks) == start && trace == []
    {
      this.original, this.locks := original, locks;
      row, discarded, known, photos, runs := Some(Stored(original)), false, {original}, [], map[];
      server, stored, creates, puts, completes := Server(NoNote, "", None), None, {}, {}, false;
      start, trace := Start(original, locks), [];
    }

    // ------------------------------------------------------------ primitives

    method Become(t: System)
      requires t.original == original && t.locks == locks
      modifies this
      ensures Value() == t && start == old(start) && trace == old(trace)
    {
      row, discarded, known, photos, runs := t.row, t.discarded, t.known, t.photos, t.runs;
      server, stored, creates, puts, completes := t.server, t.stored, t.creates, t.puts, t.completes;
    }

    /** While this tab waits, everything else may happen. */
    method Elapse(tab: Tab, others: seq<Event>, script: Script, ghost from: nat)
      requires Acting(from, tab, script)
      modifies this
      ensures Acting(from, tab, script) && start == old(start) && old(trace) <= trace
      ensures tab in runs <==> tab in old(runs)
      ensures tab in runs ==> runs[tab] == old(runs[tab])
      ensures forall k | |old(trace)| <= k < |trace| :: !Acts(tab, trace[k])
    {
      for i := 0 to |others|
        invariant Acting(from, tab, script) && start == old(start) && old(trace) <= trace
        invariant tab in runs <==> tab in old(runs)
        invariant tab in runs ==> runs[tab] == old(runs[tab])
        invariant forall k | |old(trace)| <= k < |trace| :: !Acts(tab, trace[k])
      {
        hide Enabled, Apply, Follows, Answer;
        if !Acts(tab, others[i]) && Enabled(Value(), others[i]) {
          OthersLeaveTheRun(Value(), tab, others[i]);
          Effect(Value(), others[i]);
          LegalAppend(start, trace, others[i]);
          FollowsFurther(start, trace, from, tab, script, others[i]);
          var t := Apply(Value(), others[i]);
          Become(t);
          trace := trace + [others[i]];
        }
      }
    }

    /** Goes on to the next await and sends the request it is for. With the store write just made, if any, this is one
        step of the protocol. */
    method Suspend(tab: Tab, await: Await, script: Script, ghost from: nat, ghost before: System, ghost e: Event)
      requires Legal(start, trace) && before == After(start, trace) && Follows(start, trace, from, tab, script)
      requires Enabled(before, e) && Apply(before, e) == Resume(Value(), tab, Some(await))
      requires Answer(before, tab, script) == Some(e)
      modifies this
      ensures Acting(from, tab, script) && start == old(start) && trace == old(trace) + [e]
      ensures tab in runs && runs[tab] == await
    {
      hide Enabled, Apply, BodyOf, Follows, Answer;
      LegalAppend(start, trace, e);
      FollowsFurther(start, trace, from, tab, script, e);
      Send(tab, await);
      trace := trace + [e];
    }

    method Send(tab: Tab, await: Await)
      modifies this
      ensures Value() == Resume(old(Value()), tab, Some(await)) && start == old(start) && trace == old(trace)
    {
      hide BodyOf;
      runs := runs[tab := await];
      match await {
        case Creating(draft) => creates := creates + {BodyOf(draft)};
        case Putting(draft, _) => if draft.audio.Some? { puts := puts + {draft.audio.value}; }
        case Completing(_, _) => completes := true;
        case _ =>
      }
    }

    /** Starts a run. */
    method Begin(tab: Tab, source: Draft, script: Script)
      requires Valid() && Enabled(Value(), Event.Begin(tab, source))
      modifies this
      ensures Acting(|old(trace)| + 1, tab, script) && start == old(start)
      ensures trace == old(trace) + [Event.Begin(tab, source)]
      ensures tab in runs && runs[tab] == Loading(source)
    {
      hide Enabled, Follows;
      LegalAppend(start, trace, Event.Begin(tab, source));
      NothingToFollow(start, trace + [Event.Begin(tab, source)], tab, script);
      runs := runs[tab := Loading(source)];
      trace := trace + [Event.Begin(tab, source)];
    }

    /** Ends the run. */
    method Leave(tab: Tab, result: Result, script: Script, ghost from: nat, ghost before: System, ghost e: Event)
      requires Legal(start, trace) && before == After(start, trace) && Follows(start, trace, from, tab, script)
      requires Enabled(before, e) && Apply(before, e) == Resume(Value(), tab, None)
      requires Answer(before, tab, script) == Some(e) && result == Settles(before, tab, e)
      modifies this
      ensures Over(from, tab, script, result) && start == old(start) && trace == old(trace) + [e]
    {
      hide Enabled, Apply, Follows, Settles, Ends;
      LegalAppend(start, trace, e);
      FollowsFurther(start, trace, from, tab, script, e);
      AnswersAct(before, tab, script);
      EndsNow(start, trace, tab, e);
      runs := runs - {tab};
      trace := trace + [e];
    }

    method LoadAudioDraft() returns (draft: Option<Draft>)
      ensures draft == RowRead(Value())
    {
      if row.None? {
        return None;
      }
      draft := Restore(row.value);
    }

    method UpdateAudioDraft(draft: Draft)
      modifies this
      ensures Value() == WriteRow(old(Value()), draft) && start == old(start) && trace == old(trace)
    {
      if row.Some? && row.value.meta.responsibility == draft.meta.responsibility {
        row := Some(Merge(row.value, draft));
      }
    }

    // ---------------------------------------------------------------- uploader

    method MarkUnsendable(tab: Tab, draft: Draft, script: Script, ghost from: nat)
      requires Acting(from, tab, script) && tab in runs && runs[tab] == MarkingUnsendable(draft)
      modifies this
      ensures Over(from, tab, script, Threw) && start == old(start) && old(trace) <= trace
    {
      hide Merge, Legal, After, Enabled, Apply, Resume, WriteRow, Follows, Ends;
      Elapse(tab, script.others(0), script, from);
      ghost var before := Value();
      CommittedStep(before, tab, script.markCommits);
      if script.markCommits {
        UpdateAudioDraft(draft.(state := Unsendable));
      }
      Leave(tab, Threw, script, from, before, Committed(tab, script.markCommits));
    }

    method MarkFailed(tab: Tab, latest: Draft, script: Script, ghost from: nat)
      requires Acting(from, tab, script) && tab in runs && runs[tab] == MarkingFailed(latest)
      modifies this
      ensures Over(from, tab, script, Threw) && start == old(start) && old(trace) <= trace
    {
      hide Merge, Legal, After, Enabled, Apply, Resume, WriteRow, Follows, Ends;
      Elapse(tab, script.others(4), script, from);
      ghost var before := Value();
      CommittedStep(before, tab, script.markCommits);
      if script.markCommits {
        UpdateAudioDraft(latest.(state := Failed));
      }
      Leave(tab, Threw, script, from, before, Committed(tab, script.markCommits));
    }

    /** Asks the server about the note; without a receipt the run goes on to mark the note unsendable. */
    method ReconcileReceipt(tab: Tab, draft: Draft, script: Script, ghost from: nat) returns (received: Option<Draft>)
      requires Acting(from, tab, script) && tab in runs && runs[tab] == Querying(draft)
      modifies this
      ensures start == old(start) && old(trace) <= trace
      ensures received.Some? ==> Over(from, tab, script, Returned(received.value))
      ensures received.None? ==> Acting(from, tab, script) && tab in runs && runs[tab] == MarkingUnsendable(draft)
    {
      hide Merge, Legal, After, Enabled, Apply, Resume, WriteRow, Follows, Ends, Truthful;
      Elapse(tab, script.others(1), script, from);
      var reply := Heard(Value(), Querying(draft), script.query);
      AnsweredStep(Value(), tab, reply);
      if reply.Refused? {
        Suspend(tab, MarkingUnsendable(draft), script, from, Value(), Answered(tab, reply));
        return None;
      }
      Suspend(tab, WritingReconciled(draft), script, from, Value(), Answered(tab, reply));
      received := PersistReconciled(tab, draft, script, from);
    }

    method PersistReconciled(tab: Tab, draft: Draft, script: Script, ghost from: nat) returns (received: Option<Draft>)
      requires Acting(from, tab, script) && tab in runs && runs[tab] == WritingReconciled(draft)
      modifies this
      ensures start == old(start) && old(trace) <= trace
      ensures received.Some? ==> Over(from, tab, script, Returned(received.value))
      ensures received.None? ==> Acting(from, tab, script) && tab in runs && runs[tab] == MarkingUnsendable(draft)
    {
      hide Merge, Legal, After, Enabled, Apply, Resume, WriteRow, Follows, Ends;
      Elapse(tab, script.others(2), script, from);
      ghost var before := Value();
      CommittedStep(before, tab, script.reconciledCommits);
      if !script.reconciledCommits {
        Suspend(tab, MarkingUnsendable(draft), script, from, before, Committed(tab, false));
        return None;
      }
      received := Some(draft.(state := Received, audio := None));
      UpdateAudioDraft(received.value);
      Leave(tab, Returned(received.value), script, from, before, Committed(tab, true));
    }

    /** The catch block. */
    method Recover(tab: Tab, draft: Draft, failure: Failure, script: Script, ghost from: nat) returns (result: Result)
      requires Acting(from, tab, script) && tab in runs && runs[tab] == Recovering(draft, failure)
      modifies this
      ensures Over(from, tab, script, result) && start == old(start) && old(trace) <= trace
    {
      hide Merge, Legal, After, Enabled, Apply, Resume, WriteRow, RowRead, Follows, Ends;
      Elapse(tab, script.others(3), script, from);
      LoadedStep(Value(), tab, script.reloads);
      if !script.reloads {
        Leave(tab, Threw, script, from, Value(), Loaded(tab, false));
        return Threw;
      }
      var latest := draft;
      var found := LoadAudioDraft();
      if found.Some? {
        latest := found.value;
      }
      if failure.StateConflict? && latest.noteId.Some? {
        Suspend(tab, Querying(latest), script, from, Value(), Loaded(tab, true));
        var received := ReconcileReceipt(tab, latest, script, from);
        if received.Some? {
          return Returned(received.value);
        }
        MarkUnsendable(tab, latest, script, from);
        return Threw;
      }
      if failure.StateConflict? || failure.Terminal? {
        Suspend(tab, MarkingUnsendable(latest), script, from, Value(), Loaded(tab, true));
        MarkUnsendable(tab, latest, script, from);
        return Threw;
      }
      Suspend(tab, MarkingFailed(latest), script, from, Value(), Loaded(tab, true));
      MarkFailed(tab, latest, script, from);
      result := Threw;
    }

    /** The try block: the completion and the receipt. */
    method Complete(tab: Tab, draft: Draft, noteId: string, script: Script, ghost from: nat) returns (result: Result)
      requires Acting(from, tab, script) && tab in runs && runs[tab] == Completing(draft, noteId)
      modifies this
      ensures Over(from, tab, script, result) && start == old(start) && old(trace) <= trace
    {
      hide Merge, Legal, After, Enabled, Apply, Resume, WriteRow, Follows, Ends, Truthful;
      Elapse(tab, script.others(7), script, from);
      var reply := Heard(Value(), Completing(draft, noteId), script.complete);
      AnsweredStep(Value(), tab, reply);
      if reply.Refused? {
        Suspend(tab, Recovering(draft, reply.failure), script, from, Value(), Answered(tab, reply));
        result := Recover(tab, draft, reply.failure, script, from);
        return;
      }
      Suspend(tab, WritingReceipt(draft, noteId), script, from, Value(), Answered(tab, reply));
      result := PersistReceipt(tab, draft, noteId, script, from);
    }

    method PersistReceipt(tab: Tab, draft: Draft, noteId: string, script: Script, ghost from: nat)
      returns (result: Result)
      requires Acting(from, tab, script) && tab in runs && runs[tab] == WritingReceipt(draft, noteId)
      modifies this
      ensures Over(from, tab, script, result) && start == old(start) && old(trace) <= trace
    {
      hide Merge, Legal, After, Enabled, Apply, Resume, WriteRow, Follows, Ends;
      Elapse(tab, script.others(8), script, from);
      ghost var before := Value();
      CommittedStep(before, tab, script.receiptCommits);
      if !script.receiptCommits {
        Suspend(tab, Recovering(draft, Transient), script, from, before, Committed(tab, false));
        result := Recover(tab, draft, Transient, script, from);
        return;
      }
      var received := draft.(noteId := Some(noteId), state := Received, audio := None);
      UpdateAudioDraft(received);
      result := Returned(received);
      Leave(tab, result, script, from, before, Committed(tab, true));
    }

    method PutBytes(tab: Tab, draft: Draft, noteId: string, script: Script, ghost from: nat) returns (result: Result)
      requires Acting(from, tab, script) && tab in runs && runs[tab] == Putting(draft, noteId)
      modifies this
      ensures Over(from, tab, script, result) && start == old(start) && old(trace) <= trace
    {
      hide Merge, Legal, After, Enabled, Apply, Resume, WriteRow, Follows, Ends, Truthful;
      Elapse(tab, script.others(6), script, from);
      var reply := Heard(Value(), Putting(draft, noteId), script.put);
      AnsweredStep(Value(), tab, reply);
      if reply.Refused? {
        Suspend(tab, Recovering(draft, Transient), script, from, Value(), Answered(tab, reply));
        result := Recover(tab, draft, Transient, script, from);
        return;
      }
      Suspend(tab, Completing(draft, noteId), script, from, Value(), Answered(tab, reply));
      result := Complete(tab, draft, noteId, script, from);
    }

    method PersistNote(tab: Tab, draft: Draft, noteId: string, script: Script, ghost from: nat) returns (result: Result)
      requires Acting(from, tab, script) && tab in runs && runs[tab] == PersistingNote(draft, noteId)
      modifies this
      ensures Over(from, tab, script, result) && start == old(start) && old(trace) <= trace
    {
      hide Merge, Legal, After, Enabled, Apply, Resume, WriteRow, Follows, Ends;
      Elapse(tab, script.others(5), script, from);
      ghost var before := Value();
      CommittedStep(before, tab, script.noteCommits);
      if !script.noteCommits {
        Suspend(tab, Recovering(draft, Transient), script, from, before, Committed(tab, false));
        result := Recover(tab, draft, Transient, script, from);
        return;
      }
      UpdateAudioDraft(draft.(noteId := Some(noteId), state := PendingUpload));
      Suspend(tab, Putting(draft, noteId), script, from, before, Committed(tab, true));
      result := PutBytes(tab, draft, noteId, script, from);
    }

    /** The try block: the creation. */
    method CreateAndSend(tab: Tab, draft: Draft, script: Script, ghost from: nat) returns (result: Result)
      requires Acting(from, tab, script) && tab in runs && runs[tab] == Creating(draft)
      modifies this
      ensures Over(from, tab, script, result) && start == old(start) && old(trace) <= trace
    {
      hide Merge, Legal, After, Enabled, Apply, Resume, WriteRow, Follows, Ends, Truthful;
      Elapse(tab, script.others(9), script, from);
      var reply := Heard(Value(), Creating(draft), script.create);
      AnsweredStep(Value(), tab, reply);
      if reply.Refused? {
        Suspend(tab, Recovering(draft, reply.failure), script, from, Value(), Answered(tab, reply));
        result := Recover(tab, draft, reply.failure, script, from);
        return;
      }
      var noteId := server.noteId;
      if draft.noteId.Some? && draft.noteId.value != noteId {
        Suspend(tab, Recovering(draft, Transient), script, from, Value(), Answered(tab, reply));
        result := Recover(tab, draft, Transient, script, from);
        return;
      }
      Suspend(tab, PersistingNote(draft, noteId), script, from, Value(), Answered(tab, reply));
      result := PersistNote(tab, draft, noteId, script, from);
    }

    /** Where the photo of the note stands; a failed read of the photo store counts as an empty one. */
    method ResolvePhoto(draft: Draft, read: bool) returns (photo: PhotoLookup)
      ensures photo == Resolved(draft, PhotosSeen(Value(), read))
    {
      if !draft.target.Photo? {
        return PhotoNotReady;
      }
      if Truthy(draft.target.mediaId) {
        return PhotoReady(draft.target.mediaId.value);
      }
      var items: seq<PhotoDraft> := [];
      if read {
        items := photos;
      }
      var i := 0;
      while i < |items| && Some(items[i].id) != draft.target.photoDraftId
        invariant i <= |items|
        invariant PhotoById(items, draft.target.photoDraftId) == PhotoById(items[i..], draft.target.photoDraftId)
      {
        assert items[i..][1..] == items[i + 1..];
        i := i + 1;
      }
      if i == |items| {
        return PhotoGone;
      }
      var media := items[i].media;
      if !Truthy(media.mediaId) || !CaptureAnswers.IsReady(media) {
        return PhotoNotReady;
      }
      photo := PhotoReady(media.mediaId.value);
    }

    /** A photo note finds its photo first, and writes its media id down before anything is sent. */
    method FindPhoto(tab: Tab, source: Draft, script: Script, ghost from: nat) returns (result: Result)
      requires Acting(from, tab, script) && tab in runs && runs[tab] == ResolvingPhoto(source) && source.target.Photo?
      modifies this
      ensures Over(from, tab, script, result) && start == old(start) && old(trace) <= trace
    {
      hide Merge, Legal, After, Enabled, Apply, Resume, WriteRow, Follows, Ends;
      Elapse(tab, script.others(10), script, from);
      var photo := ResolvePhoto(source, script.photosRead);
      PhotoStep(Value(), tab, script.photosRead);
      if photo.PhotoNotReady? {
        result := Returned(source);
        Leave(tab, result, script, from, Value(), PhotoRead(tab, script.photosRead));
        return;
      }
      if photo.PhotoGone? {
        Suspend(tab, MarkingUnsendable(source), script, from, Value(), PhotoRead(tab, script.photosRead));
        MarkUnsendable(tab, source, script, from);
        return Threw;
      }
      var draft := source.(target := source.target.(mediaId := Some(photo.mediaId)));
      Suspend(tab, PersistingTarget(draft), script, from, Value(), PhotoRead(tab, script.photosRead));
      result := PersistTarget(tab, draft, script, from);
    }

    method PersistTarget(tab: Tab, draft: Draft, script: Script, ghost from: nat) returns (result: Result)
      requires Acting(from, tab, script) && tab in runs && runs[tab] == PersistingTarget(draft)
      modifies this
      ensures Over(from, tab, script, result) && start == old(start) && old(trace) <= trace
    {
      hide Merge, Legal, After, Enabled, Apply, Resume, WriteRow, Follows, Ends;
      Elapse(tab, script.others(11), script, from);
      ghost var before := Value();
      CommittedStep(before, tab, script.targetCommits);
      if !script.targetCommits {
        Leave(tab, Threw, script, from, before, Committed(tab, false));
        return Threw;
      }
      UpdateAudioDraft(draft);
      Suspend(tab, Creating(draft), script, from, before, Committed(tab, true));
      result := CreateAndSend(tab, draft, script, from);
    }

    /** From the draft just read on. */
    method Proceed(tab: Tab, source: Draft, draft: Draft, script: Script, ghost from: nat) returns (result: Result)
      requires Acting(from, tab, script) && tab in runs && runs[tab] == Loading(source) && script.loads
      requires draft == if RowRead(Value()).Some? then RowRead(Value()).value else source
      modifies this
      ensures Over(from, tab, script, result) && start == old(start) && old(trace) <= trace
    {
      hide Legal, After, Enabled, Apply, Resume, RowRead, Follows, Ends;
      LoadedStep(Value(), tab, true);
      if draft.state.Received? {
        result := Returned(draft);
        Leave(tab, result, script, from, Value(), Loaded(tab, true));
        return;
      }
      if draft.state.Unsendable? {
        Leave(tab, Threw, script, from, Value(), Loaded(tab, true));
        return Threw;
      }
      if draft.audio.None? || |draft.audio.value| != draft.meta.sizeBytes {
        Suspend(tab, MarkingUnsendable(draft), script, from, Value(), Loaded(tab, true));
        MarkUnsendable(tab, draft, script, from);
        return Threw;
      }
      if draft.target.Photo? && !Truthy(draft.target.mediaId) {
        Suspend(tab, ResolvingPhoto(draft), script, from, Value(), Loaded(tab, true));
        result := FindPhoto(tab, draft, script, from);
        return;
      }
      Suspend(tab, Creating(draft), script, from, Value(), Loaded(tab, true));
      result := CreateAndSend(tab, draft, script, from);
    }

    /** One call of the uploader, whatever happens around it: it begins a run, does at each await exactly what the
        protocol does with the script's answer, and returns or throws what the end of its run settles. */
    method PerformUpload(tab: Tab, source: Draft, script: Script) returns (result: Result)
      requires Valid() && Enabled(Value(), Event.Begin(tab, source))
      modifies this
      ensures Over(|old(trace)| + 1, tab, script, result) && start == old(start)
      ensures old(trace) + [Event.Begin(tab, source)] <= trace
    {
      hide Legal, After, RowRead, Enabled, Apply, Resume, Follows, Ends;
      ghost var from := |trace| + 1;
      Begin(tab, source, script);
      Elapse(tab, script.others(12), script, from);
      LoadedStep(Value(), tab, script.loads);
      if !script.loads {
        Leave(tab, Threw, script, from, Value(), Loaded(tab, false));
        return Threw;
      }
      var draft := source;
      var found := LoadAudioDraft();
      if found.Some? {
        draft := found.value;
      }
      result := Proceed(tab, source, draft, script, from);
    }

    /** Calls in one tab share a run; with Web Locks only one tab runs, and the others just read the note. */
    method UploadAudioDraft(tab: Tab, source: Draft, script: Script) returns (call: Call)
      requires Valid() && source in known
      modifies this
      ensures Valid() && start == old(start) && old(trace) <= trace
      ensures call.Joined? <==> tab in old(runs)
      ensures call.Joined? ==> Value() == old(Value())
      ensures call.LockTaken? <==> tab !in old(runs) && locks && old(runs) != map[]
      ensures call.LockTaken? ==>
        && (forall k | |old(trace)| <= k < |trace| :: !Acts(tab, trace[k]))
        && call.result == if !script.loads then Threw
                          else Returned(if RowRead(Value()).Some? then RowRead(Value()).value else source)
      ensures call.Ran? ==>
        && old(trace) + [Event.Begin(tab, source)] <= trace
        && Over(|old(trace)| + 1, tab, script, call.result)
    {
      hide Legal, After, RowRead, Ends;
      if tab in runs {
        return Joined;
      }
      if locks && runs != map[] {
        ghost var from := |trace|;
        NothingToFollow(start, trace, tab, script);
        Elapse(tab, script.others(12), script, from);
        if !script.loads {
          return LockTaken(Threw);
        }
        var found := LoadAudioDraft();
        return LockTaken(Returned(if found.Some? then found.value else source));
      }
      var result := PerformUpload(tab, source, script);
      call := Ran(result);
    }
  }

  lemma SettledIsPast(s: System, tab: Tab, e: Event)
    requires Inv(s) && tab in s.runs && Settles(s, tab, e).Returned? && Settles(s, tab, e).draft.state.Received?
    ensures Past(s.server)
  {
    if s.runs[tab].Loading? && RowRead(s).Some? {
      RowReadOk(s);
    }
  }

  /** What the result of a run says about the row that its last event left. */
  predicate Tells(result: Result, e: Event, before: Option<Record>, row: Option<Record>) {
    && (result.Returned? && result.draft.state.Received? ==> row.None? || row.value.state.Received?)
    && (result.Returned? && !result.draft.state.Received? ==> e.PhotoRead? && row == before)
    && (result.Threw? && (e.Loaded? || e.Committed?) && e.ok && row.Some? ==> !row.value.state.Received?)
    && (result.Threw? ==> e.Loaded? || e.Committed?)
  }

  lemma LoadedTells(s: System, tab: Tab, ok: bool)
    requires Inv(s) && Enabled(s, Loaded(tab, ok)) && tab !in Apply(s, Loaded(tab, ok)).runs
    ensures Tells(Settles(s, tab, Loaded(tab, ok)), Loaded(tab, ok), s.row, s.row)
  {
    if s.row.Some? {
      RowReadState(s);
    }
    var latest := if RowRead(s).Some? then RowRead(s).value else DraftOf(s.runs[tab]);
    hide Inv, RowRead, Resume;
    ResumeFrame(s, tab, None);
    ResumeFrame(s, tab, AfterLoad(latest));
    if s.runs[tab].Recovering? {
      ResumeFrame(s, tab, Some(AfterRecovery(latest, s.runs[tab].failure)));
    }
  }

  lemma StateWritten(s: System, tab: Tab)
    requires Inv(s) && tab in s.runs && AwaitsStore(s.runs[tab])
    ensures s.row.Some? <==> WriteRow(s, Written(s.runs[tab])).row.Some?
    ensures s.row.Some? ==> WriteRow(s, Written(s.runs[tab])).row.value.state == Written(s.runs[tab]).state
  {
    if s.row.Some? {
      SameResponsibility(s, tab);
    }
    hide Inv;
  }

  lemma CommittedTells(s: System, tab: Tab, ok: bool)
    requires Inv(s) && Enabled(s, Committed(tab, ok)) && tab !in Apply(s, Committed(tab, ok)).runs
    ensures Tells(Settles(s, tab, Committed(tab, ok)), Committed(tab, ok), s.row, Apply(s, Committed(tab, ok)).row)
  {
    StateWritten(s, tab);
    Effect(s, Committed(tab, ok));
    EndsByWriting(s, tab, ok);
    hide Inv, Apply, WriteRow, RowRead;
  }

  lemma EndsByWriting(s: System, tab: Tab, ok: bool)
    requires Enabled(s, Committed(tab, ok)) && tab !in Apply(s, Committed(tab, ok)).runs
    ensures AfterWrite(s.runs[tab], ok).None?
  {
    hide Resume, WriteRow, Written, AfterWrite;
    ResumeFrame(if ok then WriteRow(s, Written(s.runs[tab])) else s, tab, AfterWrite(s.runs[tab], ok));
  }

  lemma PhotoTells(s: System, tab: Tab, ok: bool)
    requires Inv(s) && Enabled(s, PhotoRead(tab, ok))
    ensures Tells(Settles(s, tab, PhotoRead(tab, ok)), PhotoRead(tab, ok), s.row, Apply(s, PhotoRead(tab, ok)).row)
  {
    InvOfRun(s, tab);
    Effect(s, PhotoRead(tab, ok));
    hide Inv, Apply;
  }

  lemma AnsweredGoesOn(s: System, tab: Tab, reply: Reply)
    requires Enabled(s, Answered(tab, reply))
    ensures tab in Apply(s, Answered(tab, reply)).runs
  {
    hide Resume, Truthful;
    ResumeFrame(s, tab, AfterReply(s, s.runs[tab], reply));
  }

  /** What the end of a run tells its caller. */
  lemma SettlesTells(s: System, tab: Tab, e: Event)
    requires Inv(s) && tab in s.runs && Acts(tab, e) && Enabled(s, e) && !e.Crash? && tab !in Apply(s, e).runs
    ensures Tells(Settles(s, tab, e), e, s.row, Apply(s, e).row)
  {
    hide Inv, Settles, Tells, Apply, Truthful;
    match e {
      case Loaded(_, ok) =>
        Effect(s, e);
        LoadedTells(s, tab, ok);
      case PhotoRead(_, ok) => PhotoTells(s, tab, ok);
      case Committed(_, ok) => CommittedTells(s, tab, ok);
      case Answered(_, reply) => AnsweredGoesOn(s, tab, reply);
      case _ =>
    }
  }

  lemma RowReadState(s: System)
    requires Inv(s) && s.row.Some?
    ensures RowRead(s).Some? && (RowRead(s).value.state.Received? <==> s.row.value.state.Received?)
  {
  }

  /** What a call reports is what the row says: a returned receipt is a RECEIVED row, a note returned without one waits
      for its photo with its row untouched, and a call that threw after its last read or write worked left no RECEIVED
      row. */
  lemma ResultTellsTheRow(device: Device, from: nat, tab: Tab, script: Script, result: Result)
    requires Inv(device.start) && device.Over(from, tab, script, result)
    requires from < |device.trace|
    ensures var n := |device.trace| - 1;
      && Legal(device.start, device.trace[..n])
      && Tells(result, device.trace[n], After(device.start, device.trace[..n]).row, device.row)
  {
    hide Inv, Settles, Apply, Enabled, Answer, Tells;
    var n := |device.trace| - 1;
    var s := After(device.start, device.trace[..n]);
    RunInv(device.start, device.trace[..n]);
    LastStep(device.start, device.trace);
    AnswersRun(s, tab, script, device.trace[n]);
    SettlesTells(s, tab, device.trace[n]);
  }

  lemma AnswersRun(s: System, tab: Tab, script: Script, e: Event)
    requires Answer(s, tab, script) == Some(e)
    ensures tab in s.runs && !e.Crash?
  {
    hide Heard, Truthful;
  }

  /** A call that returns a received note returns it only when the server is past the upload. */
  lemma ReturnedReceiptIsPast(device: Device, from: nat, tab: Tab, script: Script, result: Result)
    requires Inv(device.start) && device.Over(from, tab, script, result)
    requires result.Returned? && result.draft.state.Received?
    ensures Past(device.server)
  {
    var n := |device.trace| - 1;
    var s := After(device.start, device.trace[..n]);
    RunInv(device.start, device.trace[..n]);
    LastStep(device.start, device.trace);
    SettledIsPast(s, tab, device.trace[n]);
    Effect(s, device.trace[n]);
  }

  /** Whatever calls were made on a device, in any number of tabs: the audio is safe as the protocol promises. */
  lemma CallsNeverLoseAudio(device: Device)
    requires device.Valid() && device.start == Start(device.original, device.locks) && Fresh(device.original)
    ensures Preserved(device.Value()) || device.discarded || GivenUp(device.Value())
    ensures ServerEnds !in device.trace ==> Preserved(device.Value()) || device.discarded
  {
    NoAudioLoss(device.original, device.locks, device.trace);
    if ServerEnds !in device.trace {
      NoLossWithoutExpiry(device.original, device.locks, device.trace);
    }
  }
}
