/** Why a note becomes UNSENDABLE: a failed read of the photo store, a photo that is really gone, or the server's
    refusal. */
module UploadVerdicts {
  import opened Options
  import opened AudioDrafts
  import opened UploadProtocol
  import opened UploadSafety
  import opened UploadWitnesses
  import CaptureAnswers

  // ----------------------------------------------------------------- lookup

  predicate Holds(photos: seq<PhotoDraft>, id: Option<string>) {
    exists photo | photo in photos :: Some(photo.id) == id
  }

  lemma {:induction false} PhotoByIdFinds(photos: seq<PhotoDraft>, id: Option<string>)
    ensures PhotoById(photos, id).Some? <==> Holds(photos, id)
    ensures PhotoById(photos, id).Some? ==>
      PhotoById(photos, id).value in photos && Some(PhotoById(photos, id).value.id) == id
  {
    if photos != [] && Some(photos[0].id) != id {
      PhotoByIdFinds(photos[1..], id);
      assert forall photo :: photo in photos <==> photo == photos[0] || photo in photos[1..];
    }
  }

  /** The lookup reports a missing photo exactly when the store could not be read or holds no photo with that id. */
  lemma MissingIffUnreadOrGone(draft: Draft, photos: seq<PhotoDraft>, ok: bool)
    requires draft.target.Photo? && !Truthy(draft.target.mediaId)
    ensures Resolved(draft, if ok then Some(photos) else None).PhotoGone? <==>
      !ok || !Holds(photos, draft.target.photoDraftId)
  {
    PhotoByIdFinds(photos, draft.target.photoDraftId);
  }

  /** A media id found is that of a ready photo with the note's own photo id. */
  lemma FoundIsOwnReadyPhoto(draft: Draft, photos: seq<PhotoDraft>)
    requires draft.target.Photo? && !Truthy(draft.target.mediaId) && Resolved(draft, Some(photos)).PhotoReady?
    ensures exists photo | photo in photos ::
      && Some(photo.id) == draft.target.photoDraftId && CaptureAnswers.IsReady(photo.media)
      && photo.media.mediaId == Some(Resolved(draft, Some(photos)).mediaId)
  {
    PhotoByIdFinds(photos, draft.target.photoDraftId);
  }

  // ------------------------------------------------------------------ causes

  function PhotoIdOf(target: Target): Option<string> {
    if target.Photo? then target.photoDraftId else None
  }

  datatype Cause = ReadFailed | PhotoRemoved | RefusedForGood

  /** The event shows the cause to the run of this tab. */
  predicate Shows(cause: Cause, s: System, tab: Tab, e: Event) {
    tab in s.runs && Acts(tab, e) &&
    match cause
    case ReadFailed => e.PhotoRead? && !e.ok && s.runs[tab].ResolvingPhoto?
    case PhotoRemoved =>
      e.PhotoRead? && e.ok && s.runs[tab].ResolvingPhoto? && !Holds(s.photos, PhotoIdOf(s.runs[tab].draft.target))
    case RefusedForGood =>
      && e.Answered? && (s.runs[tab].Creating? || s.runs[tab].Completing?)
      && e.reply.Refused? && !e.reply.failure.Transient?
  }

  /** The present run of this tab was shown the cause: after its last beginning, and it has not crashed since. */
  ghost predicate Seen(start: System, events: seq<Event>, tab: Tab, cause: Cause)
    decreases |events|
  {
    if events == [] then false
    else
      var earlier, e := events[..|events| - 1], events[|events| - 1];
      && e != Crash(tab) && !(e.Begin? && e.tab == tab)
      && Legal(start, earlier)
      && (Shows(cause, After(start, earlier), tab, e) || Seen(start, earlier, tab, cause))
  }

  /** A run that may still mark the note unsendable. */
  predicate Condemns(await: Await) {
    || await.MarkingUnsendable? || await.Querying? || await.WritingReconciled?
    || (await.Recovering? && !await.failure.Transient?)
  }

  ghost predicate HasCause(start: System, events: seq<Event>, tab: Tab) {
    exists cause :: Seen(start, events, tab, cause)
  }

  lemma SeenStays(start: System, events: seq<Event>, tab: Tab, e: Event)
    requires Legal(start, events) && HasCause(start, events, tab)
    requires e != Crash(tab) && !(e.Begin? && e.tab == tab)
    ensures HasCause(start, events + [e], tab)
  {
    var cause :| Seen(start, events, tab, cause);
    assert (events + [e])[..|events|] == events;
    assert Seen(start, events + [e], tab, cause);
  }

  lemma SeenNow(start: System, events: seq<Event>, tab: Tab, e: Event, cause: Cause)
    requires Legal(start, events) && Shows(cause, After(start, events), tab, e)
    requires e != Crash(tab) && !e.Begin?
    ensures HasCause(start, events + [e], tab)
  {
    assert (events + [e])[..|events|] == events;
    assert Seen(start, events + [e], tab, cause);
  }

  /** What a step of a run that did not condemn must have shown it to condemn afterwards. */
  lemma CondemningStep(s: System, e: Event, tab: Tab)
    requires Inv(s) && Enabled(s, e) && Acts(tab, e) && tab in s.runs && tab in Apply(s, e).runs
    requires Condemns(Apply(s, e).runs[tab]) && !Condemns(s.runs[tab])
    ensures !e.Begin? && !e.Crash?
    ensures exists cause :: Shows(cause, s, tab, e)
  {
    hide Inv, Truthful, Holds, Resume;
    InvOfRun(s, tab);
    match e {
      case PhotoRead(_, ok) =>
        ResumeFrame(s, tab, AfterPhoto(s.runs[tab].draft, Resolved(s.runs[tab].draft, PhotosSeen(s, ok))));
        PhotoStepShows(s, tab, ok);
      case Loaded(_, ok) => LoadingNeverCondemns(s, tab, ok);
      case Committed(_, ok) =>
        ResumeFrame(if ok then WriteRow(s, Written(s.runs[tab])) else s, tab, AfterWrite(s.runs[tab], ok));
      case Answered(_, reply) =>
        ResumeFrame(s, tab, AfterReply(s, s.runs[tab], reply));
        assert Shows(RefusedForGood, s, tab, e);
      case _ =>
    }
  }

  lemma PhotoStepShows(s: System, tab: Tab, ok: bool)
    requires Inv(s) && Enabled(s, PhotoRead(tab, ok))
    requires AfterPhoto(s.runs[tab].draft, Resolved(s.runs[tab].draft, PhotosSeen(s, ok))).Some?
    requires Condemns(AfterPhoto(s.runs[tab].draft, Resolved(s.runs[tab].draft, PhotosSeen(s, ok))).value)
    ensures Shows(if ok then PhotoRemoved else ReadFailed, s, tab, PhotoRead(tab, ok))
  {
    hide Inv;
    var draft := s.runs[tab].draft;
    if draft.target.Photo? && !Truthy(draft.target.mediaId) {
      MissingIffUnreadOrGone(draft, s.photos, ok);
    }
  }

  /** The bytes of an open note are whole, so the first read alone never condemns it. */
  lemma LoadingNeverCondemns(s: System, tab: Tab, ok: bool)
    requires Inv(s) && Enabled(s, Loaded(tab, ok)) && !Condemns(s.runs[tab])
    ensures tab in Apply(s, Loaded(tab, ok)).runs ==> !Condemns(Apply(s, Loaded(tab, ok)).runs[tab])
  {
    hide Resume, Restore, RowOk, ServerOk;
    var latest := if RowRead(s).Some? then RowRead(s).value else DraftOf(s.runs[tab]);
    if RowRead(s).Some? {
      RowReadOk(s);
    }
    ResumeFrame(s, tab, None);
    ResumeFrame(s, tab, AfterLoad(latest));
    if s.runs[tab].Recovering? {
      ResumeFrame(s, tab, Some(AfterRecovery(latest, s.runs[tab].failure)));
    }
  }

  /** Every run that condemns the note has seen a cause. */
  lemma {:induction false} CondemnedHasCause(start: System, events: seq<Event>, tab: Tab)
    requires Inv(start) && start.runs == map[] && Legal(start, events)
    requires tab in After(start, events).runs && Condemns(After(start, events).runs[tab])
    ensures HasCause(start, events, tab)
    decreases |events|, 0
  {
    hide Inv, Condemns, Apply, Enabled, Shows, HasCause;
    if events != [] {
      LastStep(start, events);
      var earlier, e := events[..|events| - 1], events[|events| - 1];
      assert events == earlier + [e];
      var s := After(start, earlier);
      RunInv(start, earlier);
      if !Acts(tab, e) {
        OthersLeaveTheRun(s, tab, e);
        CondemnedHasCause(start, earlier, tab);
        SeenStays(start, earlier, tab, e);
      } else {
        OwnStep(start, earlier, tab, e);
      }
    }
  }

  lemma OwnStep(start: System, earlier: seq<Event>, tab: Tab, e: Event)
    requires Inv(start) && start.runs == map[] && Legal(start, earlier) && Inv(After(start, earlier))
    requires Enabled(After(start, earlier), e) && Acts(tab, e)
    requires tab in Apply(After(start, earlier), e).runs && Condemns(Apply(After(start, earlier), e).runs[tab])
    ensures HasCause(start, earlier + [e], tab)
    decreases |earlier|, 1
  {
    hide Inv, Condemns, Apply, Shows, HasCause, Legal, After, Truthful;
    var s := After(start, earlier);
    BeginningsAreInnocent(s, tab, e);
    if Condemns(s.runs[tab]) {
      CondemnedHasCause(start, earlier, tab);
      SeenStays(start, earlier, tab, e);
    } else {
      CondemningStep(s, e, tab);
      var cause :| Shows(cause, s, tab, e);
      SeenNow(start, earlier, tab, e, cause);
    }
  }

  lemma BeginningsAreInnocent(s: System, tab: Tab, e: Event)
    requires Enabled(s, e) && Acts(tab, e) && tab in Apply(s, e).runs && Condemns(Apply(s, e).runs[tab])
    ensures !e.Begin? && !e.Crash? && tab in s.runs
  {
    hide Resume, Truthful;
  }

  // ---------------------------------------------------------------- theorems

  predicate IsUnsendable(s: System) {
    s.row.Some? && s.row.value.state.Unsendable?
  }

  /** From any saved note, with or without locks: the step that makes a row UNSENDABLE is the marking write of a run
      that, since it began, either failed to read the photo store, or read it and the photo was really gone, or had its
      creation or completion refused for good; a refusal that was reconciled wrote RECEIVED instead. */
  lemma UnsendableHasCause(original: Draft, locks: bool, events: seq<Event>, e: Event)
    requires Fresh(original) && Legal(Start(original, locks), events)
      && Enabled(After(Start(original, locks), events), e)
    requires var s := After(Start(original, locks), events); !IsUnsendable(s) && IsUnsendable(Apply(s, e))
    ensures var s := After(Start(original, locks), events);
      && e.Committed? && e.ok && e.tab in s.runs && s.runs[e.tab].MarkingUnsendable?
      && HasCause(Start(original, locks), events, e.tab)
  {
    var s := After(Start(original, locks), events);
    StartInv(original, locks);
    RunInv(Start(original, locks), events);
    OnlyMarkingCondemns(s, e);
    CondemnedHasCause(Start(original, locks), events, e.tab);
  }

  lemma OnlyMarkingCondemns(s: System, e: Event)
    requires Inv(s) && Enabled(s, e) && !IsUnsendable(s) && IsUnsendable(Apply(s, e))
    ensures e.Committed? && e.ok && e.tab in s.runs && s.runs[e.tab].MarkingUnsendable?
  {
    hide Inv, Apply, Truthful;
    Effect(s, e);
    if e.Committed? {
      InvOfRun(s, e.tab);
    }
  }

  /** No read of the photo store fails. */
  predicate ReadsWork(events: seq<Event>) {
    forall e | e in events :: e.PhotoRead? ==> e.ok
  }

  lemma {:induction false} UnfailedReads(start: System, events: seq<Event>, tab: Tab)
    requires ReadsWork(events)
    ensures !Seen(start, events, tab, ReadFailed)
    decreases |events|
  {
    if events != [] {
      var n := |events| - 1;
      assert events[n] in events && forall e | e in events[..n] :: e in events;
      UnfailedReads(start, events[..n], tab);
    }
  }

  /** Whether the note was UNSENDABLE after the first k events. */
  ghost predicate UnsendableAt(start: System, events: seq<Event>, k: nat)
    requires k <= |events|
  {
    Legal(start, events[..k]) && IsUnsendable(After(start, events[..k]))
  }

  /** Event k is the committed marking write that made the row UNSENDABLE, which it has been ever since, and its run had
      seen that the photo was gone or was refused for good. */
  ghost predicate MarkedFairly(start: System, events: seq<Event>, k: nat) {
    && k < |events| && events[k].Committed? && events[k].ok
    && Legal(start, events[..k]) && Enabled(After(start, events[..k]), events[k])
    && After(start, events[..k]).runs[events[k].tab].MarkingUnsendable?
    && !UnsendableAt(start, events, k)
    && (forall j | k < j <= |events| :: UnsendableAt(start, events, j))
    && (Seen(start, events[..k], events[k].tab, PhotoRemoved) ||
        Seen(start, events[..k], events[k].tab, RefusedForGood))
  }

  lemma StillMarkedFairly(start: System, earlier: seq<Event>, e: Event, k: nat)
    requires MarkedFairly(start, earlier, k)
    requires Legal(start, earlier + [e]) && IsUnsendable(After(start, earlier + [e]))
    ensures MarkedFairly(start, earlier + [e], k)
  {
    hide Seen, Enabled, IsUnsendable;
    var events := earlier + [e];
    assert events[..k] == earlier[..k] && events[k] == earlier[k];
    forall j | k < j <= |events| ensures UnsendableAt(start, events, j) {
      assert events[..j] == if j == |events| then events else earlier[..j];
      if j < |events| {
        assert UnsendableAt(start, earlier, j);
      }
    }
    assert !UnsendableAt(start, earlier, k);
  }

  /** While no read of the photo store fails, a note is UNSENDABLE only by a marking write whose run had seen that the
      photo really was gone, or that the server refused it for good and the refusal was not reconciled. */
  lemma {:induction false} UnsendableOnlyWhenGoneOrRefused(original: Draft, locks: bool, events: seq<Event>)
    requires Fresh(original) && Legal(Start(original, locks), events)
    requires ReadsWork(events)
    requires IsUnsendable(After(Start(original, locks), events))
    ensures exists k: nat :: MarkedFairly(Start(original, locks), events, k)
    decreases |events|
  {
    hide Fresh, Apply, Enabled, Seen;
    var start := Start(original, locks);
    StartIsOpen(original, locks);
    LastStep(start, events);
    var n := |events| - 1;
    var earlier, e := events[..n], events[n];
    assert forall x | x in earlier :: x in events;
    if IsUnsendable(After(start, earlier)) {
      UnsendableOnlyWhenGoneOrRefused(original, locks, earlier);
      var k: nat :| MarkedFairly(start, earlier, k);
      assert earlier + [e] == events;
      StillMarkedFairly(start, earlier, e, k);
    } else {
      UnsendableHasCause(original, locks, earlier, e);
      var cause :| Seen(start, earlier, e.tab, cause);
      UnfailedReads(start, earlier, e.tab);
      assert cause == PhotoRemoved || cause == RefusedForGood;
      assert events[..n] == earlier && events[n] == e && events[..n + 1] == events;
      assert MarkedFairly(start, events, n);
    }
  }

  lemma StartIsOpen(original: Draft, locks: bool)
    requires Fresh(original)
    ensures !IsUnsendable(Start(original, locks))
    ensures forall events | Legal(Start(original, locks), events)
      && IsUnsendable(After(Start(original, locks), events)) ::
      events != []
  {
  }

  lemma {:induction false} NothingFairSeen(start: System, events: seq<Event>, tab: Tab)
    requires forall e | e in events :: !e.Answered? && (e.PhotoRead? ==> !e.ok)
    ensures !Seen(start, events, tab, PhotoRemoved) && !Seen(start, events, tab, RefusedForGood)
    decreases |events|
  {
    if events != [] {
      var n := |events| - 1;
      assert events[n] in events && forall e | e in events[..n] :: e in events;
      NothingFairSeen(start, events[..n], tab);
    }
  }

  /** In every run, with failing reads or without, a note is UNSENDABLE only for a fair reason. */
  ghost predicate AlwaysFair(note: Draft, locks: bool, readsMayFail: bool) {
    forall events | Legal(Start(note, locks), events) && (readsMayFail || ReadsWork(events))
                    && IsUnsendable(After(Start(note, locks), events)) ::
      exists k: nat :: MarkedFairly(Start(note, locks), events, k)
  }

  /** For every fresh photo note without a media id, the verdict is always fair exactly when reads cannot fail. */
  lemma AlwaysFairIffReadsWork(note: Draft, locks: bool, readsMayFail: bool)
    requires Fresh(note) && NeedsPhoto(note)
    ensures AlwaysFair(note, locks, readsMayFail) <==> !readsMayFail
  {
    hide Fresh, Seen;
    if readsMayFail {
      var events := UnreadPhotoCondemnsNote(note, locks);
      forall k: nat ensures !MarkedFairly(Start(note, locks), events, k) {
        if k < |events| {
          assert forall e | e in events[..k] :: e in events;
          if events[k].Committed? {
            NothingFairSeen(Start(note, locks), events[..k], events[k].tab);
          }
        }
      }
    } else {
      forall events | Legal(Start(note, locks), events) && ReadsWork(events)
                      && IsUnsendable(After(Start(note, locks), events))
        ensures exists k: nat :: MarkedFairly(Start(note, locks), events, k)
      {
        UnsendableOnlyWhenGoneOrRefused(note, locks, events);
      }
    }
  }
}
