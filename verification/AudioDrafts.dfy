/** Voice notes kept on the device: what a saved note is, and the object store that holds them. */
module AudioDrafts {
  import opened Options

  type Bytes = seq<int>

  /** Where a note is anchored. A photo note keeps its local photo draft until the photo has a server media id. */
  datatype Target =
    | Photo(photoDraftId: Option<string>, mediaId: Option<string>)
    | Video(attemptId: string, startMs: real, endMs: real)

  datatype DraftState = PendingUpload | Received | Failed | Unsendable

  /** The part of a note that never changes after it was recorded. */
  datatype Meta = Meta(
    id: string,
    responsibility: string,
    requirementKey: string,
    disclosureVersion: string,
    consentVersion: string,
    durationMs: int,
    contentType: string,
    sizeBytes: int,
    sha256: string)

  datatype Draft = Draft(meta: Meta, target: Target, state: DraftState, audio: Option<Bytes>, noteId: Option<string>)

  /** A stored row: the draft without its blob, and the bytes beside it. */
  datatype Record = Record(meta: Meta, target: Target, state: DraftState, audioBytes: Option<Bytes>,
      noteId: Option<string>)

  const MAXIMUM_BYTES := 5 * 1024 * 1024
  const MINIMUM_MS := 500
  const MAXIMUM_MS := 60_000

  predicate Anchored(target: Target) {
    match target
    case Photo(draftId, mediaId) => Truthy(mediaId) || Truthy(draftId)
    case Video(_, start, end) => 0.0 <= start < end
  }

  predicate ValidMeta(meta: Meta) {
    && meta.id != "" && meta.responsibility != "" && meta.requirementKey != ""
    && meta.disclosureVersion != "" && meta.consentVersion != ""
    && MINIMUM_MS <= meta.durationMs <= MAXIMUM_MS
    && 0 < meta.sizeBytes <= MAXIMUM_BYTES
    && meta.sha256 != ""
  }

  predicate ValidDraft(draft: Draft) {
    ValidMeta(draft.meta) && Anchored(draft.target)
  }

  predicate Saveable(draft: Draft) {
    ValidDraft(draft) && draft.audio.Some? && |draft.audio.value| == draft.meta.sizeBytes
  }

  function Stored(draft: Draft): Record {
    Record(draft.meta, draft.target, draft.state, draft.audio, draft.noteId)
  }

  /** A note whose local bytes are missing or cut stays visible, as unsendable. */
  function Restore(record: Record): Option<Draft> {
    var draft := Draft(record.meta, record.target, record.state, record.audioBytes, record.noteId);
    if !ValidDraft(draft) then None
    else if draft.state.Received? then Some(draft.(audio := None))
    else if draft.state.Unsendable? then Some(draft)
    else if draft.audio.Some? && |draft.audio.value| == draft.meta.sizeBytes then Some(draft)
    else Some(draft.(audio := None, state := Unsendable))
  }

  /** A status change over the current row: the bytes stay, or go with a receipt; an absent note id keeps the one
      there is. */
  function Merge(current: Record, draft: Draft): Record {
    Record(draft.meta, draft.target, draft.state,
           if draft.state.Received? then None else current.audioBytes,
           if draft.noteId.Some? then draft.noteId else current.noteId)
  }

  type Rows = map<string, Record>

  predicate Owns(rows: Rows, id: string, responsibility: string) {
    id in rows && rows[id].meta.responsibility == responsibility
  }

  function Found(rows: Rows, id: string, responsibility: string): Option<Draft> {
    if Owns(rows, id, responsibility) then Restore(rows[id]) else None
  }

  function Updated(rows: Rows, draft: Draft): Rows {
    if Owns(rows, draft.meta.id, draft.meta.responsibility)
    then rows[draft.meta.id := Merge(rows[draft.meta.id], draft)] else rows
  }

  function Deleted(rows: Rows, id: string, responsibility: string): Rows {
    if Owns(rows, id, responsibility) then rows - {id} else rows
  }

  function Cleared(rows: Rows, responsibility: string): Rows {
    map id | id in rows && rows[id].meta.responsibility != responsibility :: rows[id]
  }

  /** The object store. Each transaction commits as a whole or, when `commits` is false, is aborted. */
  class AudioStore {
    var rows: Rows

    constructor ()
      ensures rows == map[]
    {
      rows := map[];
    }

    method Save(draft: Draft, commits: bool) returns (saved: bool)
      modifies this
      ensures saved <==> Saveable(draft) && commits
      ensures rows == if saved then old(rows)[draft.meta.id := Stored(draft)] else old(rows)
    {
      if !ValidDraft(draft) || draft.audio.None? || |draft.audio.value| != draft.meta.sizeBytes {
        return false;
      }
      if commits {
        rows := rows[draft.meta.id := Stored(draft)];
      }
      saved := commits;
    }

    method Load(id: string, responsibility: string) returns (draft: Option<Draft>)
      ensures draft == Found(rows, id, responsibility)
    {
      if id !in rows || rows[id].meta.responsibility != responsibility {
        return None;
      }
      draft := Restore(rows[id]);
    }

    method Update(draft: Draft, commits: bool) returns (done: bool)
      modifies this
      ensures done == commits
      ensures rows == if commits then Updated(old(rows), draft) else old(rows)
    {
      if commits && draft.meta.id in rows {
        var current := rows[draft.meta.id];
        if current.meta.responsibility == draft.meta.responsibility {
          var next := Record(draft.meta, draft.target, draft.state, current.audioBytes,
                             if draft.noteId.Some? then draft.noteId else current.noteId);
          if draft.state.Received? {
            next := next.(audioBytes := None);
          }
          rows := rows[draft.meta.id := next];
        }
      }
      done := commits;
    }

    method Delete(id: string, responsibility: string, commits: bool) returns (done: bool)
      modifies this
      ensures done == commits
      ensures rows == if commits then Deleted(old(rows), id, responsibility) else old(rows)
    {
      if commits && id in rows && rows[id].meta.responsibility == responsibility {
        rows := rows - {id};
      }
      done := commits;
    }

    /** Reads the keys of one responsibility and deletes them one by one inside the transaction. */
    method RemoveForResponsibility(responsibility: string, commits: bool) returns (done: bool)
      modifies this
      ensures done == commits
      ensures rows == if commits then Cleared(old(rows), responsibility) else old(rows)
    {
      if commits {
        var keys := set id | id in rows && rows[id].meta.responsibility == responsibility;
        while keys != {}
          invariant keys <= old(rows).Keys && forall id | id in keys ::
            old(rows)[id].meta.responsibility == responsibility
          invariant rows.Keys == Cleared(old(rows), responsibility).Keys + keys
          invariant forall id | id in rows :: rows[id] == old(rows)[id]
        {
          var id :| id in keys;
          rows := rows - {id};
          keys := keys - {id};
        }
      }
      done := commits;
    }
  }

  /** What was saved comes back unchanged, unless it already carries a receipt. */
  lemma SaveThenLoad(rows: Rows, draft: Draft)
    requires Saveable(draft)
    ensures Found(rows[draft.meta.id := Stored(draft)], draft.meta.id, draft.meta.responsibility) == Some(draft)
      <==> !draft.state.Received?
  {
    assert rows[draft.meta.id := Stored(draft)][draft.meta.id] == Stored(draft);
  }

  /** A draft that still may be sent carries exactly the stored bytes, in full length. */
  lemma SendableIsIntact(record: Record)
    requires Restore(record).Some? && Restore(record).value.state in {PendingUpload, Failed}
    ensures Restore(record).value.audio == record.audioBytes && record.audioBytes.Some?
    ensures |record.audioBytes.value| == record.meta.sizeBytes && Restore(record).value.state == record.state
  {
  }

  /** An update touches one existing row, never brings a row or its bytes back, and drops bytes only with a receipt. */
  lemma UpdateIsNarrow(rows: Rows, draft: Draft, id: string)
    ensures Updated(rows, draft).Keys == rows.Keys
    ensures id in rows && (id != draft.meta.id || !Owns(rows, id, draft.meta.responsibility)) ==>
      Updated(rows, draft)[id] == rows[id]
    ensures id in rows && Updated(rows, draft)[id].audioBytes != rows[id].audioBytes ==>
      Updated(rows, draft)[id].audioBytes == None && id == draft.meta.id && draft.state.Received?
    ensures id in rows && rows[id].noteId.Some? ==> Updated(rows, draft)[id].noteId.Some?
  {
  }

  /** Closing a responsibility removes all of its notes and no other. */
  lemma ClearIsExact(rows: Rows, responsibility: string, id: string)
    ensures id in Cleared(rows, responsibility) <==> id in rows && !Owns(rows, id, responsibility)
    ensures id in Cleared(rows, responsibility) ==> Cleared(rows, responsibility)[id] == rows[id]
  {
  }

  /** Deleting removes the named note of this responsibility and no other. */
  lemma DeleteIsExact(rows: Rows, id: string, responsibility: string, other: string)
    ensures other in Deleted(rows, id, responsibility) <==>
      other in rows && !(other == id && rows[other].meta.responsibility == responsibility)
    ensures other in Deleted(rows, id, responsibility) ==> Deleted(rows, id, responsibility)[other] == rows[other]
  {
  }

  /** What a note needs to be stored: its names, an anchor, a length and a size within the limits, a digest, and exactly
      as many bytes as it says. */
  lemma SaveableMeans(draft: Draft)
    ensures Saveable(draft) <==>
      && draft.meta.id != "" && draft.meta.responsibility != "" && draft.meta.requirementKey != ""
      && draft.meta.disclosureVersion != "" && draft.meta.consentVersion != "" && draft.meta.sha256 != ""
      && 500 <= draft.meta.durationMs <= 60_000 && 0 < draft.meta.sizeBytes <= 5_242_880
      && draft.audio.Some? && |draft.audio.value| == draft.meta.sizeBytes
      && (draft.target.Video? ==> 0.0 <= draft.target.startMs < draft.target.endMs)
      && (draft.target.Photo? ==>
            draft.target.mediaId !in {None, Some("")} || draft.target.photoDraftId !in {None, Some("")})
  {
  }

  /** A loaded note is its row: only a receipt hides the bytes, and only an open note whose bytes are missing or cut
      turns unsendable; a row that is not a valid note, or is another responsibility's, gives nothing. */
  lemma LoadMeans(rows: Rows, id: string, responsibility: string)
    ensures Found(rows, id, responsibility).Some? ==>
      && id in rows && rows[id].meta.responsibility == responsibility
      && var row, draft := rows[id], Found(rows, id, responsibility).value;
      var whole := row.audioBytes.Some? && |row.audioBytes.value| == row.meta.sizeBytes;
      && draft.meta == row.meta && draft.target == row.target && draft.noteId == row.noteId
      && draft.state == (if row.state in {Received, Unsendable} || whole then row.state else Unsendable)
      && draft.audio == (if row.state == Unsendable || (row.state != Received && whole) then row.audioBytes else None)
    ensures Found(rows, id, responsibility).None? <==>
      || id !in rows || rows[id].meta.responsibility != responsibility
      || !ValidDraft(Draft(rows[id].meta, rows[id].target, rows[id].state, rows[id].audioBytes, rows[id].noteId))
  {
  }

  /** What an update writes: the draft's own state and target, the bytes that are there unless it is a receipt, and the
      note id that is there unless the draft brings one. */
  lemma UpdateMeans(rows: Rows, draft: Draft)
    requires draft.meta.id in rows && rows[draft.meta.id].meta.responsibility == draft.meta.responsibility
    ensures var before, after := rows[draft.meta.id], Updated(rows, draft)[draft.meta.id];
      && after.meta == draft.meta && after.target == draft.target && after.state == draft.state
      && after.audioBytes == (if draft.state == Received then None else before.audioBytes)
      && after.noteId == (if draft.noteId == None then before.noteId else draft.noteId)
  {
  }
}
