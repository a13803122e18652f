/** Rollback plans: selected components go back to the images of an earlier receipt. */
module Rollback {
  import opened Options
  import opened Catalog
  import opened Planner

  datatype RollbackRequest = RollbackRequest(
    active: Receipt,
    previous: Receipt,
    names: seq<Name>,
    sourceSha: Hex,
    activeSources: Sources,
    previousSources: Sources,
    runtimeHash: Option<Hex>,
    activeRuntimeHash: Option<Hex>)

  datatype RollbackPlan = RollbackPlan(
    targets: seq<Component>,
    desired: Receipt,
    expected: StateHash,
    sourceSha: Hex,
    restored: StateHash,
    hasVideoWorker: bool,
    hasTranscriptionWorker: bool,
    componentSources: Option<map<Component, Hex>>,
    runtimeHash: Hex)

  datatype RollbackError =
    | IncompleteReceipts | BadRollbackTargets | UnpinnedPrevious
    | NoVideoWorker | NoTranscriptionWorker | RuntimeMismatch | BadExecutorSha

  /** A plan, a reported refusal, or the lookup of a key that neither receipt holds. */
  datatype RollbackOutcome = RolledBack(plan: RollbackPlan) | Refused(error: RollbackError) | KeyMissing(key: Key)

  function NewWorkers(): set<Component> { {VideoWorker, TranscriptionWorker} }

  /** The Go processes that move together: a worker that neither receipt knows stays out. */
  function Coordinated(active: Receipt, previous: Receipt): set<Component> {
    set c | c in GO && (c in NewWorkers() ==> ImageOf(c) in active || ImageOf(c) in previous)
  }

  function RollbackSet(req: RollbackRequest): set<Component> {
    var chosen := Elements(Chosen(req.names));
    if chosen * GO == {} then chosen else chosen + Coordinated(req.active, req.previous)
  }

  function RollbackList(req: RollbackRequest): seq<Component> {
    if Elements(Chosen(req.names)) * GO == {} then Chosen(req.names) else Ordered(RollbackSet(req))
  }

  predicate Loses(req: RollbackRequest, targets: set<Component>, worker: Component) {
    ImageOf(worker) in req.active && ImageOf(worker) !in req.previous && targets * GO != {}
  }

  predicate RuntimeMatches(req: RollbackRequest) {
    && req.activeRuntimeHash.Some? && req.activeRuntimeHash.value.text != ""
    && req.runtimeHash.Some? && req.runtimeHash.value.text != ""
    && req.activeRuntimeHash.value == req.runtimeHash.value
  }

  function RollbackRefusal(req: RollbackRequest): Option<RollbackError> {
    var targets := RollbackSet(req);
    if !InFamily(req.active.Keys) || !InFamily(req.previous.Keys) then Some(IncompleteReceipts)
    else if req.names == [] || !NamesKnown(req.names) || !NamesDistinct(req.names) then Some(BadRollbackTargets)
    else if !AllPinned(req.previous) then Some(UnpinnedPrevious)
    else if Loses(req, targets, VideoWorker) then Some(NoVideoWorker)
    else if Loses(req, targets, TranscriptionWorker) then Some(NoTranscriptionWorker)
    else if !RuntimeMatches(req) then Some(RuntimeMismatch)
    else if !req.sourceSha.Commit? then Some(BadExecutorSha)
    else None
  }

  /** The first of the listed components whose image the previous receipt does not hold. */
  function FirstMissing(list: seq<Component>, previous: Receipt): Option<Key> {
    if list == [] then None
    else if ImageOf(list[0]) !in previous then Some(ImageOf(list[0]))
    else FirstMissing(list[1..], previous)
  }

  /** The key whose lookup fails, if any. */
  function Missing(req: RollbackRequest): Option<Key> {
    if LiteLlm !in req.previous && LiteLlm !in req.active then Some(LiteLlm)
    else FirstMissing(RollbackList(req), req.previous)
  }

  /** The previous receipt, completed with the gateway image that stays in place. */
  function WithGateway(active: Receipt, previous: Receipt): Receipt {
    if LiteLlm in previous || LiteLlm !in active then previous else previous[LiteLlm := active[LiteLlm]]
  }

  /** What key k holds once the images of `done` are back. */
  function RestoredImage(active: Receipt, previous: Receipt, done: set<Component>, k: Key): Image {
    if TakesImage(done, k) && k in previous then previous[k]
    else if k in active then active[k]
    else Mutable("")
  }

  function Restored(active: Receipt, previous: Receipt, targets: set<Component>): Receipt {
    map k | k in active.Keys + previous.Keys && (k in active || TakesImage(targets, k)) ::
      RestoredImage(active, previous, targets, k)
  }

  /** The origin of each component after the rollback: the previous one for the targets, the active one for the rest. */
  function MergedOrigins(active: map<Name, Hex>, previous: map<Name, Hex>, targets: set<Component>): map<Component, Hex>
    requires active.Keys == ALL_NAMES && previous.Keys == ALL_NAMES
  {
    map c | c in ALL :: assert Known(c) in ALL_NAMES; if c in targets then previous[Known(c)] else active[Known(c)]
  }

  function MergedSources(req: RollbackRequest, targets: set<Component>): Option<map<Component, Hex>> {
    if !SourcesComplete(req.activeSources) || !SourcesComplete(req.previousSources) then None
    else
      var merged := MergedOrigins(req.activeSources.value, req.previousSources.value, targets);
      if forall c | c in merged :: merged[c].Commit? then Some(merged) else None
  }

  function RollbackPlanFor(req: RollbackRequest): RollbackPlan {
    var targets := RollbackSet(req);
    RollbackPlan(RollbackList(req), Restored(req.active, req.previous, targets), StateHash(req.active), req.sourceSha,
                 StateHash(WithGateway(req.active, req.previous)),
                 ImageOf(VideoWorker) in req.previous, ImageOf(TranscriptionWorker) in req.previous,
                 MergedSources(req, targets), if req.runtimeHash.Some? then req.runtimeHash.value else NotHex(""))
  }

  function PlannedRollback(req: RollbackRequest): RollbackOutcome {
    if RollbackRefusal(req).Some? then Refused(RollbackRefusal(req).value)
    else if Missing(req).Some? then KeyMissing(Missing(req).value)
    else RolledBack(RollbackPlanFor(req))
  }

  // ---------------------------------------------------------------- methods

  method CoordinateGo(active: Receipt, previous: Receipt, list: seq<Component>) returns (targets: seq<Component>)
    ensures targets == if Elements(list) * GO == {} then list
                       else Ordered(Elements(list) + Coordinated(active, previous))
  {
    targets := list;
    if Elements(list) * GO != {} {
      var coordinated := GO;
      if ImageOf(VideoWorker) !in active && ImageOf(VideoWorker) !in previous {
        coordinated := coordinated - {VideoWorker};
      }
      if ImageOf(TranscriptionWorker) !in active && ImageOf(TranscriptionWorker) !in previous {
        coordinated := coordinated - {TranscriptionWorker};
      }
      assert coordinated == Coordinated(active, previous);
      targets := InCatalogOrder(Elements(list) + coordinated);
    }
  }

  lemma RollbackListElements(req: RollbackRequest)
    ensures Elements(RollbackList(req)) == RollbackSet(req)
  {
    OrderedElements(RollbackSet(req));
  }

  lemma {:induction false} FirstMissingAfter(list: seq<Component>, previous: Receipt, n: nat)
    requires n <= |list|
    requires forall i | 0 <= i < n :: ImageOf(list[i]) in previous
    ensures FirstMissing(list, previous) == FirstMissing(list[n..], previous)
  {
    if n > 0 {
      assert list[1..][n - 1..] == list[n..];
      FirstMissingAfter(list[1..], previous, n - 1);
    } else {
      assert list[n..] == list;
    }
  }

  /** Copies the listed images back, or stops at the first one the previous receipt lacks. */
  method Restore(active: Receipt, previous: Receipt, list: seq<Component>)
    returns (desired: Receipt, missing: Option<Key>)
    ensures missing == FirstMissing(list, previous)
    ensures missing.None? ==> desired == Restored(active, previous, Elements(list))
  {
    desired, missing := active, None;
    ghost var done: set<Component> := {};
    for i := 0 to |list|
      invariant missing.None? && done == Elements(list[..i])
      invariant forall j | 0 <= j < i :: ImageOf(list[j]) in previous
      invariant forall c | c in done :: ImageOf(c) in previous
      invariant forall k :: k in desired <==> k in active || TakesImage(done, k)
      invariant forall k | k in desired :: desired[k] == RestoredImage(active, previous, done, k)
    {
      FirstMissingAfter(list, previous, i);
      if ImageOf(list[i]) !in previous {
        return desired, Some(ImageOf(list[i]));
      }
      desired := desired[ImageOf(list[i]) := previous[ImageOf(list[i])]];
      done := done + {list[i]};
      assert list[..i + 1] == list[..i] + [list[i]];
    }
    FirstMissingAfter(list, previous, |list|);
    assert list[..|list|] == list;
  }

  method MergeSources(req: RollbackRequest, list: seq<Component>) returns (merged: Option<map<Component, Hex>>)
    ensures merged == MergedSources(req, Elements(list))
  {
    merged := None;
    if SourcesComplete(req.activeSources) && SourcesComplete(req.previousSources) {
      var active, previous := req.activeSources.value, req.previousSources.value;
      var sources := MergedOrigins(active, previous, {});
      ghost var done: set<Component> := {};
      for i := 0 to |list|
        invariant done == Elements(list[..i])
        invariant sources == MergedOrigins(active, previous, done)
      {
        assert Known(list[i]) in ALL_NAMES;
        sources := sources[list[i] := previous[Known(list[i])]];
        done := done + {list[i]};
        assert list[..i + 1] == list[..i] + [list[i]];
      }
      assert list[..|list|] == list;
      if forall c | c in sources :: sources[c].Commit? {
        merged := Some(sources);
      }
    }
  }

  method CreateRollbackPlan(req: RollbackRequest) returns (r: RollbackOutcome)
    ensures r == PlannedRollback(req)
  {
    if !InFamily(req.active.Keys) || !InFamily(req.previous.Keys) {
      return Refused(IncompleteReceipts);
    }
    if req.names == [] || !NamesKnown(req.names) || !NamesDistinct(req.names) {
      return Refused(BadRollbackTargets);
    }
    if !AllPinned(req.previous) {
      return Refused(UnpinnedPrevious);
    }
    var list := CoordinateGo(req.active, req.previous, Chosen(req.names));
    RollbackListElements(req);
    var targets := Elements(list);
    if ImageOf(VideoWorker) in req.active && ImageOf(VideoWorker) !in req.previous && targets * GO != {} {
      return Refused(NoVideoWorker);
    }
    if ImageOf(TranscriptionWorker) in req.active && ImageOf(TranscriptionWorker) !in req.previous
      && targets * GO != {} {
      return Refused(NoTranscriptionWorker);
    }
    if !RuntimeMatches(req) {
      return Refused(RuntimeMismatch);
    }
    if !req.sourceSha.Commit? {
      return Refused(BadExecutorSha);
    }
    var previous := req.previous;
    if LiteLlm !in previous {
      if LiteLlm !in req.active {
        return KeyMissing(LiteLlm);
      }
      previous := previous[LiteLlm := req.active[LiteLlm]];
    }
    var desired, missing := Restore(req.active, req.previous, list);
    if missing.Some? {
      return KeyMissing(missing.value);
    }
    var sources := MergeSources(req, list);
    r := RolledBack(RollbackPlan(
      list, desired, StateHash(req.active), req.sourceSha, StateHash(previous),
      ImageOf(VideoWorker) in previous, ImageOf(TranscriptionWorker) in previous, sources, req.runtimeHash.value));
  }
}
