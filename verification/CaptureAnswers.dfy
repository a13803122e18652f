/** Capture answers: counting the media of a requirement, and keeping the local answers in step with uploads. */
module CaptureAnswers {
  import opened Options

  datatype Status = NoStatus | Screened | Rejected | Purged | Aborted | Ready | Underway

  /** A photo or video kept on the device, as far as counting looks at it. */
  datatype MediaDraft = MediaDraft(
    requirementKey: string,
    mediaId: Option<string>,
    status: Status,
    metadataSaved: bool,
    parts: seq<bool>)

  datatype Answer = Answer(requirementKey: string, mediaIds: seq<string>, impossibilityReason: Option<string>,
      version: int)

  datatype Requirement = Requirement(key: string, required: bool, minimumMedia: int)

  predicate IsBlocked(draft: MediaDraft) {
    draft.status in {Screened, Rejected, Purged, Aborted}
  }

  predicate IsReady(draft: MediaDraft) {
    && draft.status.Ready? && Truthy(draft.mediaId) && draft.metadataSaved
    && |draft.parts| > 0 && forall complete | complete in draft.parts :: complete
  }

  // ----------------------------------------------------------------- counting

  /** An unblocked draft for the requirement. */
  predicate Counts(key: string, draft: MediaDraft) {
    !IsBlocked(draft) && draft.requirementKey == key
  }

  function BlockedIds(drafts: seq<MediaDraft>): set<string> {
    set draft | draft in drafts && IsBlocked(draft) && Truthy(draft.mediaId) :: draft.mediaId.value
  }

  function AnswerIds(key: string, answers: seq<Answer>): set<string> {
    set answer, id | answer in answers && answer.requirementKey == key && id in answer.mediaIds && id != "" :: id
  }

  function DraftIds(key: string, drafts: seq<MediaDraft>): set<string> {
    set draft | draft in drafts && Counts(key, draft) && Truthy(draft.mediaId) :: draft.mediaId.value
  }

  /** How many unblocked drafts of the requirement have no media id yet. */
  function Unnamed(key: string, drafts: seq<MediaDraft>): nat {
    if drafts == [] then 0
    else
      var draft := drafts[|drafts| - 1];
      Unnamed(key, drafts[..|drafts| - 1]) + if Counts(key, draft) && !Truthy(draft.mediaId) then 1 else 0
  }

  /** The distinct unblocked media of the requirement, plus the drafts that have no media id yet. */
  function MediaCount(key: string, answers: seq<Answer>, drafts: seq<MediaDraft>): nat {
    |AnswerIds(key, answers) - BlockedIds(drafts) + DraftIds(key, drafts)| + Unnamed(key, drafts)
  }

  method MediaCountForRequirement(key: string, answers: seq<Answer>, drafts: seq<MediaDraft>) returns (count: nat)
    ensures count == MediaCount(key, answers, drafts)
  {
    hide AnswerIds, BlockedIds, DraftIds, Unnamed;
    NoDrafts(key);
    var mediaIds := AnswerIds(key, answers) - BlockedIds(drafts);
    ghost var answered := mediaIds;
    assert drafts[..0] == [];
    count := |mediaIds|;
    for i := 0 to |drafts|
      invariant mediaIds == answered + DraftIds(key, drafts[..i])
      invariant count == |mediaIds| + Unnamed(key, drafts[..i])
    {
      var draft := drafts[i];
      assert drafts[..i + 1] == drafts[..i] + [draft];
      OneMoreCounted(answered, key, drafts[..i], draft);
      if IsBlocked(draft) || draft.requirementKey != key || (Truthy(draft.mediaId) && draft.mediaId.value in mediaIds) {
        continue;
      }
      if Truthy(draft.mediaId) {
        mediaIds := mediaIds + {draft.mediaId.value};
      }
      count := count + 1;
    }
    assert drafts[..|drafts|] == drafts;
  }

  lemma NoDrafts(key: string)
    ensures DraftIds(key, []) == {} && Unnamed(key, []) == 0
  {
  }

  lemma OneMoreDraft(key: string, drafts: seq<MediaDraft>, draft: MediaDraft)
    ensures DraftIds(key, drafts + [draft]) ==
      DraftIds(key, drafts) + if Counts(key, draft) && Truthy(draft.mediaId) then {draft.mediaId.value} else {}
    ensures Unnamed(key, drafts + [draft]) ==
      Unnamed(key, drafts) + if Counts(key, draft) && !Truthy(draft.mediaId) then 1 else 0
  {
    assert (drafts + [draft])[..|drafts|] == drafts;
    var more := drafts + [draft];
    forall id | id in DraftIds(key, drafts) ensures id in DraftIds(key, more) {
      var d :| d in drafts && Counts(key, d) && Truthy(d.mediaId) && d.mediaId.value == id;
      assert d in more;
    }
    assert draft in more;
  }

  /** One more draft counts exactly when it is unblocked, for this requirement, and not listed by its media id. */
  lemma OneMoreCounted(answered: set<string>, key: string, drafts: seq<MediaDraft>, draft: MediaDraft)
    ensures var ids, more := answered + DraftIds(key, drafts), answered + DraftIds(key, drafts + [draft]);
      var counted := Counts(key, draft) && !(Truthy(draft.mediaId) && draft.mediaId.value in ids);
      && more == (if counted && Truthy(draft.mediaId) then ids + {draft.mediaId.value} else ids)
      && |more| + Unnamed(key, drafts + [draft]) == |ids| + Unnamed(key, drafts) + if counted then 1 else 0
  {
    hide DraftIds, Unnamed;
    OneMoreDraft(key, drafts, draft);
    var ids, more := answered + DraftIds(key, drafts), answered + DraftIds(key, drafts + [draft]);
    if Counts(key, draft) && Truthy(draft.mediaId) {
      assert more == ids + {draft.mediaId.value};
    } else {
      assert more == ids;
    }
  }

  lemma {:induction false} UnnamedOfSum(key: string, first: seq<MediaDraft>, second: seq<MediaDraft>)
    ensures Unnamed(key, first + second) == Unnamed(key, first) + Unnamed(key, second)
  {
    if second == [] {
      assert first + second == first;
    } else {
      assert (first + second)[..|first + second| - 1] == first + second[..|second| - 1];
      UnnamedOfSum(key, first, second[..|second| - 1]);
    }
  }

  lemma Removed<T>(items: seq<T>, i: nat, rest: seq<T>)
    requires i < |items| && multiset(items) == multiset(rest + [items[i]])
    ensures multiset(items[..i] + items[i + 1..]) == multiset(rest)
  {
    assert items == items[..i] + [items[i]] + items[i + 1..];
    assert multiset(items) == multiset(items[..i] + items[i + 1..]) + multiset{items[i]};
    assert multiset(items) == multiset(rest) + multiset{items[i]};
    assert multiset(rest) == multiset(items) - multiset{items[i]};
  }

  lemma UnnamedWithout(key: string, drafts: seq<MediaDraft>, i: nat)
    requires i < |drafts|
    ensures Unnamed(key, drafts) == Unnamed(key, drafts[..i] + drafts[i + 1..]) + Unnamed(key, [drafts[i]])
  {
    hide Unnamed;
    var before, after := drafts[..i], drafts[i + 1..];
    assert drafts == before + [drafts[i]] + after;
    UnnamedOfSum(key, before + [drafts[i]], after);
    UnnamedOfSum(key, before, [drafts[i]]);
    UnnamedOfSum(key, before, after);
  }

  lemma {:induction false} UnnamedIsUnordered(key: string, drafts: seq<MediaDraft>, drafts': seq<MediaDraft>)
    requires multiset(drafts) == multiset(drafts')
    ensures Unnamed(key, drafts) == Unnamed(key, drafts')
    decreases |drafts|
  {
    if drafts == [] {
      assert |multiset(drafts')| == 0;
    } else {
      hide Unnamed;
      var rest, last := drafts[..|drafts| - 1], drafts[|drafts| - 1];
      assert drafts == rest + [last];
      assert last in multiset(drafts');
      var i :| 0 <= i < |drafts'| && drafts'[i] == last;
      Removed(drafts', i, rest);
      UnnamedIsUnordered(key, rest, drafts'[..i] + drafts'[i + 1..]);
      UnnamedWithout(key, drafts', i);
      UnnamedOfSum(key, rest, [last]);
    }
  }

  /** The order of the drafts and of the answers never matters, although the loop looks at them one by one. */
  lemma CountIsUnordered(key: string, answers: seq<Answer>, drafts: seq<MediaDraft>, answers': seq<Answer>,
      drafts': seq<MediaDraft>)
    requires multiset(answers) == multiset(answers') && multiset(drafts) == multiset(drafts')
    ensures MediaCount(key, answers, drafts) == MediaCount(key, answers', drafts')
  {
    UnnamedIsUnordered(key, drafts, drafts');
    assert forall answer :: answer in answers <==> answer in multiset(answers);
    assert forall answer :: answer in answers' <==> answer in multiset(answers');
    assert forall draft :: draft in drafts <==> draft in multiset(drafts);
    assert forall draft :: draft in drafts' <==> draft in multiset(drafts');
    assert AnswerIds(key, answers) == AnswerIds(key, answers');
    assert BlockedIds(drafts) == BlockedIds(drafts');
    assert DraftIds(key, drafts) == DraftIds(key, drafts');
  }

  /** A counted medium is listed for the requirement and not blocked, or belongs to a draft of it that is not screened,
      rejected, purged or aborted. */
  lemma CountedMedia(key: string, answers: seq<Answer>, drafts: seq<MediaDraft>, id: string)
    ensures id in AnswerIds(key, answers) - BlockedIds(drafts) + DraftIds(key, drafts) <==>
      id != "" &&
      (|| (&& (exists answer | answer in answers :: answer.requirementKey == key && id in answer.mediaIds)
           && !exists draft | draft in drafts ::
                draft.mediaId == Some(id) && draft.status in {Screened, Rejected, Purged, Aborted})
       || exists draft | draft in drafts ::
            && draft.mediaId == Some(id) && draft.requirementKey == key
            && draft.status !in {Screened, Rejected, Purged, Aborted})
  {
    if id in BlockedIds(drafts) {
      var draft :| draft in drafts && IsBlocked(draft) && Truthy(draft.mediaId) && draft.mediaId.value == id;
      assert draft.mediaId == Some(id);
    }
    if id in DraftIds(key, drafts) {
      var draft :| draft in drafts && Counts(key, draft) && Truthy(draft.mediaId) && draft.mediaId.value == id;
      assert draft.mediaId == Some(id);
    }
  }

  /** Uploaded, named, described, and whole in every part. */
  predicate Complete(draft: MediaDraft) {
    && draft.status == Ready && draft.mediaId.Some? && draft.mediaId.value != "" && draft.metadataSaved
    && draft.parts != [] && forall i | 0 <= i < |draft.parts| :: draft.parts[i]
  }

  /** Ready means complete. */
  lemma ReadyMeans(draft: MediaDraft)
    ensures IsReady(draft) <==> Complete(draft)
  {
    assert forall complete | complete in draft.parts :: exists i ::
      0 <= i < |draft.parts| && draft.parts[i] == complete;
    assert forall i | 0 <= i < |draft.parts| :: draft.parts[i] in draft.parts;
  }

  // ------------------------------------------------------------------- merging

  /** The first answer to the requirement. */
  function Find(answers: seq<Answer>, key: string): Option<Answer> {
    if answers == [] then None
    else if answers[0].requirementKey == key then Some(answers[0])
    else Find(answers[1..], key)
  }

  function Without(ids: seq<string>, id: string): seq<string> {
    if ids == [] then []
    else Without(ids[..|ids| - 1], id) + if ids[|ids| - 1] == id then [] else [ids[|ids| - 1]]
  }

  function Retained(ids: seq<string>, replaced: Option<string>): seq<string> {
    if replaced.Some? then Without(ids, replaced.value) else ids
  }

  /** Every answer to the requirement gets these media; its version grows when asked. */
  function WithMedia(answers: seq<Answer>, key: string, ids: seq<string>, newer: bool): seq<Answer> {
    seq(|answers|, i requires 0 <= i < |answers| =>
      if answers[i].requirementKey == key
      then answers[i].(mediaIds := ids, version := answers[i].version + if newer then 1 else 0) else answers[i])
  }

  function Merge(answers: seq<Answer>, key: string, mediaId: string, blocked: bool,
      replaced: Option<string>): seq<Answer>
  {
    var current := Find(answers, key);
    if current.None? then answers + [Answer(key, if blocked then [] else [mediaId], None, 1)]
    else
      var ids := current.value.mediaIds;
      var others := Without(Retained(ids, replaced), mediaId);
      if blocked then WithMedia(answers, key, others, mediaId !in ids)
      else if mediaId in ids && replaced.None? then answers
      else WithMedia(answers, key, others + [mediaId], mediaId !in ids)
  }

  function MarkImpossible(answers: seq<Answer>, key: string, reason: string): seq<Answer> {
    if Find(answers, key).None? then answers + [Answer(key, [], Some(reason), 1)]
    else
      seq(|answers|, i requires 0 <= i < |answers| =>
        if answers[i].requirementKey == key && answers[i].impossibilityReason != Some(reason)
        then answers[i].(impossibilityReason := Some(reason), version := answers[i].version + 1) else answers[i])
  }

  /** One answer per requirement, no media twice. */
  predicate WellFormed(answers: seq<Answer>) {
    && (forall i, j | 0 <= i < j < |answers| :: answers[i].requirementKey != answers[j].requirementKey)
    && (forall answer | answer in answers :: Distinct(answer.mediaIds))
  }

  lemma {:induction false} FindIs(answers: seq<Answer>, key: string)
    ensures Find(answers, key).None? <==> forall answer | answer in answers :: answer.requirementKey != key
    ensures Find(answers, key).Some? ==>
      Find(answers, key).value in answers && Find(answers, key).value.requirementKey == key
  {
    if answers != [] && answers[0].requirementKey != key {
      FindIs(answers[1..], key);
      assert forall answer :: answer in answers <==> answer == answers[0] || answer in answers[1..];
    }
  }

  lemma {:induction false} FindAppended(answers: seq<Answer>, added: Answer, key: string)
    ensures Find(answers + [added], key) ==
      if Find(answers, key).Some? then Find(answers, key) else if added.requirementKey == key then Some(added) else None
  {
    if answers == [] {
      assert (answers + [added])[1..] == [];
    } else {
      assert (answers + [added])[1..] == answers[1..] + [added];
      FindAppended(answers[1..], added, key);
    }
  }

  /** A list that changes answers in place, keys kept, is searched alike. */
  lemma {:induction false} FindChanged(answers: seq<Answer>, changed: seq<Answer>, key: string) returns (i: nat)
    requires |answers| == |changed| && Find(answers, key).Some?
    requires forall j | 0 <= j < |answers| :: answers[j].requirementKey == changed[j].requirementKey
    ensures i < |answers| && Find(answers, key) == Some(answers[i]) && Find(changed, key) == Some(changed[i])
  {
    if answers[0].requirementKey == key {
      i := 0;
    } else {
      var k := FindChanged(answers[1..], changed[1..], key);
      i := k + 1;
    }
  }

  lemma {:induction false} WithoutIs(ids: seq<string>, id: string)
    ensures forall x :: x in Without(ids, id) <==> x in ids && x != id
    ensures Distinct(ids) ==> Distinct(Without(ids, id))
    ensures id !in ids ==> Without(ids, id) == ids
  {
    if ids != [] {
      var rest, last := ids[..|ids| - 1], ids[|ids| - 1];
      WithoutIs(rest, id);
      assert ids == rest + [last];
      DistinctPrefix(rest, last);
      DistinctPrefix(Without(rest, id), last);
    }
  }

  lemma DistinctPrefix(ids: seq<string>, last: string)
    ensures Distinct(ids + [last]) <==> Distinct(ids) && last !in ids
  {
    var more := ids + [last];
    if Distinct(more) {
      forall i, j | 0 <= i < j < |ids| ensures ids[i] != ids[j] {
        assert more[i] != more[j];
      }
      forall i | 0 <= i < |ids| ensures ids[i] != last {
        assert more[i] != more[|ids|];
      }
    }
  }

  /** The media of a requirement after an upload was reported. */
  predicate HasAfterMerge(before: Option<Answer>, mediaId: string, blocked: bool, replaced: Option<string>,
      id: string)
  {
    if id == mediaId then !blocked
    else before.Some? && id in before.value.mediaIds && replaced != Some(id)
  }

  /** What a report does: the new media joins the answer exactly when it is not blocked, the replaced one leaves, the
      version grows exactly when the media was not listed yet, and no other requirement notices. */
  lemma MergeEffect(answers: seq<Answer>, key: string, mediaId: string, blocked: bool, replaced: Option<string>)
    ensures var before, after := Find(answers, key), Find(Merge(answers, key, mediaId, blocked, replaced), key);
      && after.Some?
      && (forall id :: id in after.value.mediaIds <==> HasAfterMerge(before, mediaId, blocked, replaced, id))
      && (if before.None? then after.value.version == 1 && after.value.impossibilityReason == None
          else
            && after.value.impossibilityReason == before.value.impossibilityReason
            && after.value.version == before.value.version + if mediaId in before.value.mediaIds then 0 else 1)
  {
    hide Without;
    var merged := Merge(answers, key, mediaId, blocked, replaced);
    if Find(answers, key).None? {
      FindAppended(answers, Answer(key, if blocked then [] else [mediaId], None, 1), key);
    } else {
      var i := FindChanged(answers, merged, key);
      FindIs(answers, key);
      var ids := answers[i].mediaIds;
      if replaced.Some? {
        WithoutIs(ids, replaced.value);
      }
      WithoutIs(Retained(ids, replaced), mediaId);
    }
  }

  /** The answers keep their places; only answers to this requirement change, and at most one is added at the end. */
  ghost predicate Touches(before: seq<Answer>, after: seq<Answer>, key: string) {
    && |before| <= |after|
    && (forall i | 0 <= i < |before| :: after[i].requirementKey == before[i].requirementKey)
    && (forall i | 0 <= i < |before| && before[i].requirementKey != key :: after[i] == before[i])
    && (forall i | 0 <= i < |before| :: after[i].version >= before[i].version)
    && (forall i | |before| <= i < |after| :: after[i].requirementKey == key)
  }

  lemma MergeTouches(answers: seq<Answer>, key: string, mediaId: string, blocked: bool, replaced: Option<string>)
    ensures Touches(answers, Merge(answers, key, mediaId, blocked, replaced), key)
  {
    hide Without, Retained, Find;
  }

  lemma MergeWellFormed(answers: seq<Answer>, key: string, mediaId: string, blocked: bool, replaced: Option<string>)
    requires WellFormed(answers)
    ensures WellFormed(Merge(answers, key, mediaId, blocked, replaced))
  {
    hide Without, Find;
    var merged := Merge(answers, key, mediaId, blocked, replaced);
    FindIs(answers, key);
    if Find(answers, key).Some? {
      var ids := Find(answers, key).value.mediaIds;
      if replaced.Some? {
        WithoutIs(ids, replaced.value);
      }
      WithoutIs(Retained(ids, replaced), mediaId);
      var others := Without(Retained(ids, replaced), mediaId);
      assert Distinct(others + [mediaId]);
      ChangedWellFormed(answers, merged);
    } else {
      AppendedWellFormed(answers, merged[|answers|]);
    }
  }

  lemma ChangedWellFormed(answers: seq<Answer>, changed: seq<Answer>)
    requires WellFormed(answers) && |changed| == |answers|
    requires forall i | 0 <= i < |answers| :: changed[i].requirementKey == answers[i].requirementKey
    requires forall i | 0 <= i < |answers| :: Distinct(changed[i].mediaIds)
    ensures WellFormed(changed)
  {
  }

  lemma AppendedWellFormed(answers: seq<Answer>, added: Answer)
    requires WellFormed(answers) && Distinct(added.mediaIds)
    requires forall answer | answer in answers :: answer.requirementKey != added.requirementKey
    ensures WellFormed(answers + [added])
  {
  }

  /** A repeated report of an accepted upload changes nothing. */
  lemma AcceptedReplayIsIdle(answers: seq<Answer>, key: string, mediaId: string, replaced: Option<string>)
    ensures var once := Merge(answers, key, mediaId, false, replaced);
      Merge(once, key, mediaId, false, replaced) == once
  {
    hide Without;
    var once := Merge(answers, key, mediaId, false, replaced);
    MergeEffect(answers, key, mediaId, false, replaced);
    var ids := Find(once, key).value.mediaIds;
    if replaced.Some? {
      MediaIsLast(answers, key, mediaId, replaced);
      ReplayedMedia(ids[..|ids| - 1], mediaId, replaced);
      var again := Merge(once, key, mediaId, false, replaced);
      assert again == WithMedia(once, key, ids, false);
      SameMedia(answers, key, mediaId, replaced);
    }
  }

  lemma WithoutAppended(ids: seq<string>, x: string, id: string)
    ensures Without(ids + [x], id) == Without(ids, id) + if x == id then [] else [x]
  {
    assert (ids + [x])[..|ids|] == ids;
  }

  /** Adding the media once more leaves the list as it is. */
  lemma ReplayedMedia(others: seq<string>, mediaId: string, replaced: Option<string>)
    requires mediaId !in others && (replaced.Some? ==> replaced.value !in others)
    ensures Without(Retained(others + [mediaId], replaced), mediaId) + [mediaId] == others + [mediaId]
  {
    hide Without;
    WithoutIs(others, mediaId);
    WithoutAppended(others, mediaId, mediaId);
    assert others + [] == others;
    if replaced.Some? {
      WithoutIs(others, replaced.value);
      WithoutAppended(others, mediaId, replaced.value);
    }
  }

  lemma MediaIsLast(answers: seq<Answer>, key: string, mediaId: string, replaced: Option<string>)
    requires replaced.Some?
    ensures var found := Find(Merge(answers, key, mediaId, false, replaced), key);
      && found.Some?
      && exists others :: found.value.mediaIds == others + [mediaId] && mediaId !in others && replaced.value !in others
  {
    hide Without;
    if Find(answers, key).None? {
      FindAppended(answers, Answer(key, [mediaId], None, 1), key);
      assert [] + [mediaId] == [mediaId];
    } else {
      var merged := Merge(answers, key, mediaId, false, replaced);
      var i := FindChanged(answers, merged, key);
      FindIs(answers, key);
      var ids := answers[i].mediaIds;
      WithoutIs(ids, replaced.value);
      WithoutIs(Without(ids, replaced.value), mediaId);
      assert merged[i].mediaIds == Without(Without(ids, replaced.value), mediaId) + [mediaId];
    }
  }

  /** After a report all answers to the requirement list the same media, so listing them again changes nothing. */
  lemma SameMedia(answers: seq<Answer>, key: string, mediaId: string, replaced: Option<string>)
    requires replaced.Some?
    ensures var once := Merge(answers, key, mediaId, false, replaced);
      Find(once, key).Some? && WithMedia(once, key, Find(once, key).value.mediaIds, false) == once
  {
    hide Without, Retained;
    var once := Merge(answers, key, mediaId, false, replaced);
    FindIs(answers, key);
    if Find(answers, key).None? {
      FindAppended(answers, Answer(key, [mediaId], None, 1), key);
    } else {
      var i := FindChanged(answers, once, key);
      FindIs(once, key);
    }
  }

  /** A repeated report of a blocked upload lists the same media but always raises the version once more. */
  lemma BlockedReplayRaisesVersion(answers: seq<Answer>, key: string, mediaId: string, replaced: Option<string>)
    ensures var once := Merge(answers, key, mediaId, true, replaced);
      var again := Merge(once, key, mediaId, true, replaced);
      && Find(once, key).Some? && Find(again, key).Some?
      && Find(again, key).value == Find(once, key).value.(version := Find(once, key).value.version + 1)
  {
    hide Without;
    var once := Merge(answers, key, mediaId, true, replaced);
    MergeEffect(answers, key, mediaId, true, replaced);
    var i := FindChanged(once, Merge(once, key, mediaId, true, replaced), key);
    FindIs(once, key);
    var ids := once[i].mediaIds;
    if replaced.Some? {
      WithoutIs(ids, replaced.value);
    }
    WithoutIs(Retained(ids, replaced), mediaId);
    assert replaced.Some? && replaced.value != mediaId ==>
      !HasAfterMerge(Find(answers, key), mediaId, true, replaced, replaced.value);
  }

  lemma ImpossibleEffect(answers: seq<Answer>, key: string, reason: string)
    ensures var before, after := Find(answers, key), Find(MarkImpossible(answers, key, reason), key);
      && after.Some? && after.value.impossibilityReason == Some(reason)
      && after.value.mediaIds == (if before.Some? then before.value.mediaIds else [])
      && after.value.version ==
        if before.None? then 1
        else before.value.version + if before.value.impossibilityReason == Some(reason) then 0 else 1
    ensures Touches(answers, MarkImpossible(answers, key, reason), key)
  {
    FindIs(answers, key);
    if Find(answers, key).None? {
      FindAppended(answers, Answer(key, [], Some(reason), 1), key);
    } else {
      var i := FindChanged(answers, MarkImpossible(answers, key, reason), key);
    }
  }

  lemma ImpossibleWellFormed(answers: seq<Answer>, key: string, reason: string)
    requires WellFormed(answers)
    ensures WellFormed(MarkImpossible(answers, key, reason))
  {
    hide Find;
    FindIs(answers, key);
    if Find(answers, key).None? {
      AppendedWellFormed(answers, Answer(key, [], Some(reason), 1));
    } else {
      ChangedWellFormed(answers, MarkImpossible(answers, key, reason));
    }
  }

  lemma ImpossibleReplayIsIdle(answers: seq<Answer>, key: string, reason: string)
    ensures var once := MarkImpossible(answers, key, reason); MarkImpossible(once, key, reason) == once
  {
    hide Find;
    FindIs(answers, key);
    var once := MarkImpossible(answers, key, reason);
    ImpossibleEffect(answers, key, reason);
    if Find(answers, key).None? {
      assert forall i | 0 <= i < |once| && once[i].requirementKey == key :: once[i].impossibilityReason == Some(reason);
    }
  }

  // --------------------------------------------------------------------- runs

  datatype Operation =
    | Uploaded(key: string, mediaId: string, blocked: bool, replaced: Option<string>)
    | Impossible(key: string, reason: string)

  function Apply(answers: seq<Answer>, operation: Operation): seq<Answer> {
    match operation
    case Uploaded(key, mediaId, blocked, replaced) => Merge(answers, key, mediaId, blocked, replaced)
    case Impossible(key, reason) => MarkImpossible(answers, key, reason)
  }

  function After(answers: seq<Answer>, operations: seq<Operation>): seq<Answer> {
    if operations == [] then answers
    else Apply(After(answers, operations[..|operations| - 1]), operations[|operations| - 1])
  }

  ghost predicate Named(operations: seq<Operation>, key: string) {
    exists operation | operation in operations :: operation.key == key
  }

  /** Answers keep their places and never lose a version; only named requirements change, appear, or are added. */
  ghost predicate Descends(before: seq<Answer>, after: seq<Answer>, operations: seq<Operation>) {
    && |before| <= |after|
    && (forall i | 0 <= i < |before| ::
      after[i].requirementKey == before[i].requirementKey && after[i].version >= before[i].version)
    && (forall i | 0 <= i < |before| && !Named(operations, before[i].requirementKey) :: after[i] == before[i])
    && (forall i | |before| <= i < |after| :: Named(operations, after[i].requirementKey))
  }

  lemma ApplyTouches(answers: seq<Answer>, operation: Operation)
    ensures Touches(answers, Apply(answers, operation), operation.key)
    ensures WellFormed(answers) ==> WellFormed(Apply(answers, operation))
  {
    hide Merge, MarkImpossible, Touches, WellFormed;
    match operation {
      case Uploaded(key, mediaId, blocked, replaced) =>
        MergeTouches(answers, key, mediaId, blocked, replaced);
        if WellFormed(answers) {
          MergeWellFormed(answers, key, mediaId, blocked, replaced);
        }
      case Impossible(key, reason) =>
        ImpossibleEffect(answers, key, reason);
        if WellFormed(answers) {
          ImpossibleWellFormed(answers, key, reason);
        }
    }
  }

  lemma DescendsFurther(first: seq<Answer>, second: seq<Answer>, third: seq<Answer>, operations: seq<Operation>,
      last: Operation)
    requires Descends(first, second, operations) && Touches(second, third, last.key)
    ensures Descends(first, third, operations + [last])
  {
    hide Named;
    forall key | Named(operations, key) || key == last.key ensures Named(operations + [last], key) {
      NamedFurther(operations, last, key);
    }
    forall i | |first| <= i < |third| ensures Named(operations + [last], third[i].requirementKey) {
      if i < |second| {
        assert third[i].requirementKey == second[i].requirementKey;
      }
    }
  }

  lemma NamedFurther(operations: seq<Operation>, last: Operation, key: string)
    ensures Named(operations + [last], key) <==> Named(operations, key) || key == last.key
  {
    assert forall operation :: operation in operations + [last] <==> operation in operations || operation == last;
  }

  /** Any sequence of upload reports and impossibilities keeps the list well formed and its history in order. */
  lemma {:induction false} RunsKeepOrder(answers: seq<Answer>, operations: seq<Operation>)
    requires WellFormed(answers)
    ensures WellFormed(After(answers, operations)) && Descends(answers, After(answers, operations), operations)
  {
    if operations != [] {
      var earlier, last := operations[..|operations| - 1], operations[|operations| - 1];
      RunsKeepOrder(answers, earlier);
      ApplyTouches(After(answers, earlier), last);
      DescendsFurther(answers, After(answers, earlier), After(answers, operations), earlier, last);
      assert earlier + [last] == operations;
    }
  }

  // ------------------------------------------------------------- satisfaction

  /** A draft with this media id is not ready. */
  predicate Spoiled(id: string, drafts: seq<MediaDraft>) {
    exists draft | draft in drafts :: draft.mediaId == Some(id) && !IsReady(draft)
  }

  function ReadyAnswers(ids: seq<string>, drafts: seq<MediaDraft>): nat {
    if ids == [] then 0
    else ReadyAnswers(ids[..|ids| - 1], drafts) + if Spoiled(ids[|ids| - 1], drafts) then 0 else 1
  }

  function ReadyDraftIds(key: string, drafts: seq<MediaDraft>): set<string> {
    set draft | draft in drafts && draft.requirementKey == key && IsReady(draft) :: draft.mediaId.value
  }

  function ListedMedia(answers: seq<Answer>, key: string): seq<string> {
    if Find(answers, key).Some? then Find(answers, key).value.mediaIds else []
  }

  predicate Excused(answers: seq<Answer>, key: string) {
    Find(answers, key).Some? && Truthy(Find(answers, key).value.impossibilityReason)
  }

  function ReadyTotal(answers: seq<Answer>, drafts: seq<MediaDraft>, key: string): nat {
    ReadyAnswers(ListedMedia(answers, key), drafts) + |ReadyDraftIds(key, drafts)|
  }

  predicate Met(requirement: Requirement, answers: seq<Answer>, drafts: seq<MediaDraft>) {
    Excused(answers, requirement.key) || ReadyTotal(answers, drafts, requirement.key) >= requirement.minimumMedia
  }

  predicate RequirementsSatisfied(requirements: seq<Requirement>, answers: seq<Answer>, drafts: seq<MediaDraft>) {
    forall requirement | requirement in requirements && requirement.required :: Met(requirement, answers, drafts)
  }

  function ReadyAnswerIds(ids: seq<string>, drafts: seq<MediaDraft>): set<string> {
    set id | id in ids && !Spoiled(id, drafts)
  }

  /** The distinct ready media of a requirement, wherever they are listed. */
  function ReadyMedia(answers: seq<Answer>, drafts: seq<MediaDraft>, key: string): set<string> {
    ReadyAnswerIds(ListedMedia(answers, key), drafts) + ReadyDraftIds(key, drafts)
  }

  /** The ready media that are listed twice: in the answer and as a ready draft. */
  function ListedTwice(answers: seq<Answer>, drafts: seq<MediaDraft>, key: string): set<string> {
    ReadyAnswerIds(ListedMedia(answers, key), drafts) * ReadyDraftIds(key, drafts)
  }

  /** A reason, or enough distinct ready media. */
  predicate EnoughMedia(requirement: Requirement, answers: seq<Answer>, drafts: seq<MediaDraft>) {
    Excused(answers, requirement.key) || |ReadyMedia(answers, drafts, requirement.key)| >= requirement.minimumMedia
  }

  /** A medium is ready when the answer lists it and every draft of it on the device is complete, or when a draft of the
      requirement is complete. */
  lemma ReadyMediaMeans(answers: seq<Answer>, drafts: seq<MediaDraft>, key: string, id: string)
    requires WellFormed(answers)
    ensures id in ReadyMedia(answers, drafts, key) <==>
      || (&& (exists answer | answer in answers :: answer.requirementKey == key && id in answer.mediaIds)
          && forall draft | draft in drafts && draft.mediaId == Some(id) :: Complete(draft))
      || exists draft | draft in drafts :: draft.requirementKey == key && draft.mediaId == Some(id) && Complete(draft)
  {
    OnlyAnswer(answers, key);
    forall draft ensures IsReady(draft) <==> Complete(draft) { ReadyMeans(draft); }
    hide IsReady, Complete;
    assert Spoiled(id, drafts) <==> exists draft | draft in drafts :: draft.mediaId == Some(id) && !Complete(draft);
    DraftIdsMean(drafts, key, id);
  }

  lemma DraftIdsMean(drafts: seq<MediaDraft>, key: string, id: string)
    ensures id in ReadyDraftIds(key, drafts) <==>
      exists draft | draft in drafts :: draft.requirementKey == key && draft.mediaId == Some(id) && IsReady(draft)
  {
  }

  lemma OnlyAnswer(answers: seq<Answer>, key: string)
    requires WellFormed(answers)
    ensures forall answer | answer in answers && answer.requirementKey == key :: Find(answers, key) == Some(answer)
    ensures Find(answers, key).Some? ==>
      Find(answers, key).value in answers && Find(answers, key).value.requirementKey == key
  {
    FindIs(answers, key);
  }

  /** A requirement is excused by an answer that gives a reason. */
  lemma ExcusedMeans(answers: seq<Answer>, key: string)
    requires WellFormed(answers)
    ensures Excused(answers, key) <==>
      exists answer | answer in answers ::
        answer.requirementKey == key && answer.impossibilityReason !in {None, Some("")}
  {
    OnlyAnswer(answers, key);
  }

  lemma {:induction false} DistinctCount(ids: seq<string>, drafts: seq<MediaDraft>)
    requires Distinct(ids)
    ensures ReadyAnswers(ids, drafts) == |ReadyAnswerIds(ids, drafts)|
  {
    hide Spoiled;
    if ids != [] {
      var rest, last := ids[..|ids| - 1], ids[|ids| - 1];
      DistinctCount(rest, drafts);
      assert last !in rest && ids == rest + [last];
      assert ReadyAnswerIds(ids, drafts) == ReadyAnswerIds(rest, drafts) + if Spoiled(last, drafts) then {} else {last};
    }
  }

  lemma ListedIsDistinct(answers: seq<Answer>, key: string)
    requires WellFormed(answers)
    ensures Distinct(ListedMedia(answers, key))
  {
    FindIs(answers, key);
  }

  /** What the total counts: every ready media once, and those listed twice once more. */
  lemma TotalCountsTwice(answers: seq<Answer>, drafts: seq<MediaDraft>, key: string)
    requires WellFormed(answers)
    ensures ReadyTotal(answers, drafts, key) == |ReadyMedia(answers, drafts, key)| + |ListedTwice(answers, drafts, key)|
  {
    ListedIsDistinct(answers, key);
    DistinctCount(ListedMedia(answers, key), drafts);
  }

  /** The check is right for every possible minimum exactly when no ready draft is already listed in the answer, or a
      reason excuses the requirement anyway. */
  lemma CheckIsRightIffDisjoint(answers: seq<Answer>, drafts: seq<MediaDraft>, key: string)
    requires WellFormed(answers)
    ensures ListedTwice(answers, drafts, key) == {} || Excused(answers, key) <==>
      forall minimum ::
        Met(Requirement(key, true, minimum), answers, drafts) <==>
          EnoughMedia(Requirement(key, true, minimum), answers, drafts)
  {
    hide ReadyMedia, ListedTwice, ReadyTotal, Excused;
    TotalCountsTwice(answers, drafts, key);
    if ListedTwice(answers, drafts, key) != {} && !Excused(answers, key) {
      var exact := Requirement(key, true, ReadyTotal(answers, drafts, key));
      assert |ListedTwice(answers, drafts, key)| > 0;
      assert Met(exact, answers, drafts) && !EnoughMedia(exact, answers, drafts);
    }
  }

  /** When nothing is listed twice, satisfaction means a reason or enough distinct ready media for each requirement. */
  lemma SatisfiedMeansEnoughMedia(requirements: seq<Requirement>, answers: seq<Answer>, drafts: seq<MediaDraft>)
    requires WellFormed(answers)
    requires forall requirement | requirement in requirements && requirement.required ::
      ListedTwice(answers, drafts, requirement.key) == {}
    ensures RequirementsSatisfied(requirements, answers, drafts) <==>
      forall requirement | requirement in requirements && requirement.required ::
        EnoughMedia(requirement, answers, drafts)
  {
    hide ReadyMedia, ListedTwice, ReadyTotal, Excused;
    forall requirement | requirement in requirements && requirement.required
      ensures Met(requirement, answers, drafts) <==> EnoughMedia(requirement, answers, drafts)
    {
      TotalCountsTwice(answers, drafts, requirement.key);
    }
  }

  /** Otherwise it may mean less: one uploaded photo whose ready draft is still on the device satisfies a minimum of
      two. */
  lemma OnePhotoCountsTwice(key: string, mediaId: string)
    requires mediaId != ""
    ensures var answers := Merge([], key, mediaId, false, None);
      var drafts := [MediaDraft(key, Some(mediaId), Ready, true, [true])];
      && WellFormed(answers)
      && RequirementsSatisfied([Requirement(key, true, 2)], answers, drafts)
      && ReadyMedia(answers, drafts, key) == {mediaId}
      && MediaCount(key, answers, drafts) == 1
  {
    var answers, draft := Merge([], key, mediaId, false, None), MediaDraft(key, Some(mediaId), Ready, true, [true]);
    assert answers == [Answer(key, [mediaId], None, 1)];
    OneReadyDraft(key, mediaId, draft);
    OneAnswer(key, mediaId);
    hide IsReady, Spoiled, ReadyDraftIds, BlockedIds, DraftIds, AnswerIds, Unnamed;
    assert ListedMedia(answers, key) == [mediaId];
    assert ReadyAnswerIds([mediaId], [draft]) == {mediaId};
    assert ReadyMedia(answers, [draft], key) == {mediaId} == ListedTwice(answers, [draft], key);
    TotalCountsTwice(answers, [draft], key);
    assert {mediaId} - {} + {mediaId} == {mediaId};
  }

  lemma OneReadyDraft(key: string, mediaId: string, draft: MediaDraft)
    requires mediaId != "" && draft == MediaDraft(key, Some(mediaId), Ready, true, [true])
    ensures ReadyDraftIds(key, [draft]) == {mediaId} == DraftIds(key, [draft]) && BlockedIds([draft]) == {}
    ensures !Spoiled(mediaId, [draft]) && Unnamed(key, [draft]) == 0
  {
    assert draft in [draft];
    assert mediaId in ReadyDraftIds(key, [draft]) && mediaId in DraftIds(key, [draft]);
    assert [draft][..0] == [];
  }

  lemma OneAnswer(key: string, mediaId: string)
    requires mediaId != ""
    ensures AnswerIds(key, [Answer(key, [mediaId], None, 1)]) == {mediaId}
  {
    var answer := Answer(key, [mediaId], None, 1);
    assert answer in [answer] && mediaId in answer.mediaIds;
  }
}
