/** From the microphone to the server: every note the recorder saves is one the upload protocol keeps safe. */
module VoiceNotes {
  import opened AudioDrafts
  import Recorder
  import RecorderRuns
  import UploadProtocol
  import UploadSafety
  import UploadLock

  /** A recording whose identity names no note yet saves only fresh notes, in every order of browser events. */
  lemma SavedNotesAreFresh(
    identity: Recorder.Identity, contentType: string, startedAt: real, recording: seq<RecorderRuns.Event>, draft: Draft)
    requires identity.noteId.None? && RecorderRuns.Legal(Recorder.Started(identity, contentType, startedAt), recording)
    requires draft in RecorderRuns.After(Recorder.Started(identity, contentType, startedAt), recording).saved
    ensures UploadProtocol.Fresh(draft)
  {
    hide RecorderRuns.After, Recorder.Started, Saveable;
    RecorderRuns.RecorderSafety(identity, contentType, startedAt, recording, map[]);
  }

  /** Whatever happens while it is recorded and while it is uploaded, in any number of tabs, a saved recording is still
      on the device, or durably on the server, byte for byte; or it was discarded, or the server ended it and its bytes
      were dropped for that. */
  lemma RecordedAudioIsNeverLost(
    identity: Recorder.Identity, contentType: string, startedAt: real, recording: seq<RecorderRuns.Event>, draft: Draft,
    locks: bool, uploading: seq<UploadProtocol.Event>)
    requires identity.noteId.None? && RecorderRuns.Legal(Recorder.Started(identity, contentType, startedAt), recording)
    requires draft in RecorderRuns.After(Recorder.Started(identity, contentType, startedAt), recording).saved
    requires UploadProtocol.Legal(UploadProtocol.Start(draft, locks), uploading)
    ensures var s := UploadProtocol.After(UploadProtocol.Start(draft, locks), uploading);
      s.original == draft && (UploadSafety.Preserved(s) || s.discarded || UploadSafety.GivenUp(s))
  {
    hide UploadProtocol.After, RecorderRuns.After, UploadProtocol.Fresh, RecorderRuns.Legal, UploadProtocol.Legal;
    SavedNotesAreFresh(identity, contentType, startedAt, recording, draft);
    UploadLock.SameOriginal(UploadProtocol.Start(draft, locks), uploading);
    UploadSafety.NoAudioLoss(draft, locks, uploading);
  }
}
