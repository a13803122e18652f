/** What single plans and pairs of plans promise. */
module PlannerTheorems {
  import opened Options
  import opened Catalog
  import opened Planner
  import opened Rollback

  // ------------------------------------------------- facts about one composition

  /** What membership in the accepted family gives for each key. */
  lemma FamilyKeys(keys: set<Key>)
    ensures InFamily(keys) <==>
      (forall k :: (k in keys ==> !k.OtherImage?) && (!k.OtherImage? && !IsOptional(k) ==> k in keys))
  {
    forall k ensures k in MANDATORY <==> !k.OtherImage? && !IsOptional(k) { CompositionMembers(k); }
  }

  lemma CompositionInFamily()
    ensures InFamily(COMPOSITION)
  {
    forall k ensures k in COMPOSITION <==> !k.OtherImage? { CompositionMembers(k); }
    FamilyKeys(COMPOSITION);
  }

  /** Importing a legacy receipt adds keys and keeps what was there. */
  lemma ImportKeeps(active: Receipt, k: Key)
    requires k in active
    ensures k in Import(active) && Import(active)[k] == active[k]
  {
    if active.Keys == LEGACY && k.ImageOf? && k.component in GO - {VideoWorker, TranscriptionWorker} {
      assert k == ImageOf(Api);
    }
  }

  lemma ImportAccepted(active: Receipt)
    requires InFamily(active.Keys)
    ensures Import(active) == active
  {
    CompositionMembers(ImageOf(Worker));
    assert ImageOf(Worker) in active && ImageOf(Worker) !in LEGACY;
  }

  /** The receipt is empty or accepted, and a receipt without every key takes all components. */
  predicate Composable(active: Receipt, targets: set<Component>) {
    && (active == map[] || InFamily(active.Keys))
    && (active == map[] || LacksOptional(active) ==> targets == ALL)
  }

  /** The receipt and infrastructure checks pass exactly for some targets, on a pinned receipt that is empty or accepted
      and complete for those targets, with complete pinned infrastructure. */
  lemma ReceiptChecksPassIff(active: Receipt, candidate: Candidate, targets: set<Component>)
    ensures ReceiptRefusal(active, candidate, targets).None? <==>
      && targets != {} && Composable(active, targets) && AllPinned(active)
      && InfrastructureComplete(candidate) && InfrastructurePinned(candidate)
  {
  }

  /** Once the receipt checks pass, the composition has exactly the sixteen keys. */
  lemma ComposedKeys(active: Receipt, candidate: Candidate, targets: set<Component>)
    requires Composable(active, targets)
    ensures DesiredImages(active, candidate, targets).Keys == COMPOSITION
    ensures InFamily(DesiredImages(active, candidate, targets).Keys)
    ensures forall k: Key | !k.OtherImage? ::
      && k in DesiredImages(active, candidate, targets)
      && DesiredImages(active, candidate, targets)[k] == DesiredImage(active, candidate, targets, targets, k)
  {
    var desired := DesiredImages(active, candidate, targets);
    FamilyKeys(active.Keys);
    forall k ensures k in desired <==> k in COMPOSITION {
      CompositionMembers(k);
      if !k.OtherImage? && k !in active && !TakesImage(targets, k) {
        assert k == LiteLlm || active == map[];
      }
    }
    forall k ensures k in COMPOSITION <==> !k.OtherImage? { CompositionMembers(k); }
    assert desired.Keys == COMPOSITION;
    CompositionInFamily();
  }

  lemma ComposedPinned(active: Receipt, candidate: Candidate, targets: set<Component>)
    requires Composable(active, targets) && AllPinned(active)
    requires InfrastructureComplete(candidate) && InfrastructurePinned(candidate) && ItemsValid(candidate)
    ensures AllPinned(DesiredImages(active, candidate, targets))
  {
    var desired := DesiredImages(active, candidate, targets);
    forall k | k in desired ensures desired[k].Pinned? {
      if TakesImage(targets, k) {
        assert ItemValid(k.component, ItemAt(candidate, k.component));
      } else if TakesInfrastructure(active, targets, k) {
        assert k in candidate.infrastructure.images;
      }
    }
  }

  // --------------------------------------------------------------- acceptance

  predicate Accepts(req: Request) {
    Refusal(req).None?
  }

  function Desired(req: Request): Receipt {
    DesiredImages(Import(req.active), req.candidate, TargetSet(req))
  }

  /** The three groups of checks, without the one that cannot fail. */
  predicate Passes(req: Request) {
    && InputRefusal(req).None?
    && ReceiptRefusal(Import(req.active), req.candidate, TargetSet(req)).None?
    && CoordinationRefusal(req, TargetSet(req), Impact(req)).None?
  }

  lemma GatewayCheckUnreachable(req: Request, targets: set<Component>)
    ensures InputRefusal(req) !in {Some(GatewayWithoutWorker), Some(IncompleteComposition)}
    ensures ReceiptRefusal(Import(req.active), req.candidate, targets) !in
      {Some(GatewayWithoutWorker), Some(IncompleteComposition)}
    ensures CoordinationRefusal(req, targets, Impact(req)) !in {Some(GatewayWithoutWorker), Some(IncompleteComposition)}
  {
    hide Inferred, Import;
  }

  lemma CompositionCheckPasses(req: Request, impact: Compatibility)
    ensures CompositionRefusal(req, impact) ==
      (var refused := ReceiptRefusal(Import(req.active), req.candidate, TargetsWith(req, impact));
       if refused.Some? then refused else CoordinationRefusal(req, TargetsWith(req, impact), impact))
  {
    var active, targets := Import(req.active), TargetsWith(req, impact);
    if ReceiptRefusal(active, req.candidate, targets).None? {
      ReceiptChecksPassIff(active, req.candidate, targets);
      ComposedKeys(active, req.candidate, targets);
    }
  }

  /** The later checks on the composed keys and on the gateway can never be the ones that refuse. */
  lemma UnreachableRefusals(req: Request)
    ensures Refusal(req) != Some(IncompleteComposition) && Refusal(req) != Some(GatewayWithoutWorker)
    ensures Accepts(req) <==> Passes(req)
  {
    hide InputRefusal, ReceiptRefusal, CoordinationRefusal, DesiredImages, Inferred, Requested, Import;
    CompositionCheckPasses(req, Impact(req));
    GatewayCheckUnreachable(req, TargetSet(req));
  }

  /** Every accepted deploy asks for exactly the full composition, with every image pinned by digest. */
  lemma DeployClosure(req: Request)
    requires Accepts(req)
    ensures Desired(req).Keys == COMPOSITION && AllPinned(Desired(req))
  {
    hide ReceiptRefusal, CoordinationRefusal, Refusal, Inferred, Import, DesiredImages, TargetSet, AllPinned,
      ItemsValid,
      Composable, InfrastructureComplete, InfrastructurePinned, Accepts;
    UnreachableRefusals(req);
    ReceiptChecksPassIff(Import(req.active), req.candidate, TargetSet(req));
    ComposedKeys(Import(req.active), req.candidate, TargetSet(req));
    ComposedPinned(Import(req.active), req.candidate, TargetSet(req));
  }

  // ------------------------------------------------------------- scope=changed

  /** Targets that leave out only components whose image is already the candidate's. */
  predicate Covers(active: Receipt, candidate: Candidate, targets: set<Component>) {
    && (forall c: Component | c !in targets :: ImageOf(c) in active && active[ImageOf(c)] == Offered(candidate, c))
    && (Worker !in targets ==> !GatewayDiffers(active, candidate))
  }

  lemma ChangedCovers(req: Request, impact: Compatibility)
    requires req.scope == Changed
    ensures Covers(Import(req.active), req.candidate, TargetsWith(req, impact))
  {
    var active, targets := Import(req.active), TargetsWith(req, impact);
    forall c: Component | c !in targets
      ensures ImageOf(c) in active && active[ImageOf(c)] == Offered(req.candidate, c)
      ensures c == Worker ==> !GatewayDiffers(active, req.candidate)
    {
      assert c in ALL && c !in Requested(req, impact);
      assert c !in Differing(req.active, req.candidate);
      ImportKeeps(req.active, ImageOf(c));
      if c == Worker && LiteLlm in req.active {
        ImportKeeps(req.active, LiteLlm);
      }
    }
  }

  lemma CoveredImage(active: Receipt, candidate: Candidate, targets: set<Component>, k: Key)
    requires Composable(active, targets) && Covers(active, candidate, targets) && !k.OtherImage?
    requires InfrastructureComplete(candidate) && InfrastructurePinned(candidate)
    ensures DesiredImage(active, candidate, targets, targets, k) == DesiredImage(active, candidate, ALL, ALL, k)
  {
    if k == LiteLlm && Worker !in targets && active != map[] && LiteLlm in active {
      assert k in candidate.infrastructure.images;
    }
  }

  lemma ComposableWithAll(active: Receipt, targets: set<Component>)
    requires Composable(active, targets)
    ensures Composable(active, ALL)
  {
  }

  /** A plan that covers the differences composes what the full plan composes. */
  lemma CoveringComposesEverything(active: Receipt, candidate: Candidate, targets: set<Component>)
    requires Composable(active, targets) && Covers(active, candidate, targets)
    requires InfrastructureComplete(candidate) && InfrastructurePinned(candidate)
    ensures DesiredImages(active, candidate, targets) == DesiredImages(active, candidate, ALL)
  {
    hide DesiredImages, DesiredImage, Composable, Covers, InFamily, InfrastructureComplete, InfrastructurePinned;
    var minimal, full := DesiredImages(active, candidate, targets), DesiredImages(active, candidate, ALL);
    ComposableWithAll(active, targets);
    ComposedKeys(active, candidate, targets);
    ComposedKeys(active, candidate, ALL);
    forall k | k in minimal ensures k in full && minimal[k] == full[k] {
      CompositionMembers(k);
      CoveredImage(active, candidate, targets, k);
    }
    assert minimal.Keys == full.Keys;
  }

  lemma CoordinationGrows(req: Request, targets: set<Component>, wider: set<Component>, impact: Compatibility)
    requires CoordinationRefusal(req, targets, impact).None? && targets <= wider
    ensures CoordinationRefusal(req, wider, impact).None?
  {
    assert targets == ALL ==> wider == ALL;
  }

  /** Scope and target names matter only to the input checks and to the target set. */
  lemma CoordinationIgnoresNames(req: Request, other: Request, targets: set<Component>, impact: Compatibility)
    requires other.operation == req.operation && other.recoveryOf == req.recoveryOf
    requires other.runtimeHash == req.runtimeHash
    ensures CoordinationRefusal(other, targets, impact) == CoordinationRefusal(req, targets, impact)
  {
  }

  /** Whenever scope=changed is accepted, scope=all is accepted on the same inputs and desires the same images. */
  lemma MinimalPlanEqualsFullPlan(req: Request)
    requires req.scope == Changed && Accepts(req)
    ensures Accepts(req.(scope := Whole))
    ensures Desired(req.(scope := Whole)) == Desired(req)
  {
    hide ReceiptRefusal, CoordinationRefusal, Refusal, Inferred, Import, DesiredImages;
    var full := req.(scope := Whole);
    var active := Import(req.active);
    UnreachableRefusals(req);
    UnreachableRefusals(full);
    assert TargetSet(full) == ALL;
    ReceiptChecksGrow(active, req.candidate, TargetSet(req), ALL);
    CoordinationIgnoresNames(req, full, TargetSet(req), Impact(req));
    CoordinationGrows(full, TargetSet(req), ALL, Impact(req));
    ReceiptChecksPassIff(active, req.candidate, TargetSet(req));
    ChangedCovers(req, Impact(req));
    CoveringComposesEverything(active, req.candidate, TargetSet(req));
  }

  lemma WideTargets(req: Request, impact: Compatibility)
    requires req.scope == Changed || req.scope == Whole
    ensures impact.contract != Compatible || impact.database == DatabaseUnknown || req.active == map[] ==>
      TargetsWith(req, impact) == ALL
    ensures impact.database == DatabaseRequired ==> GO <= TargetsWith(req, impact)
  {
    if impact.database == DatabaseRequired {
      assert Api in Requested(req, impact) * GO;
    }
  }

  /** scope=changed and scope=all select enough that no database or contract gate can refuse them. */
  lemma WideScopesAreCoordinated(req: Request)
    requires req.scope == Changed || req.scope == Whole
    ensures Refusal(req) !in {Some(DatabaseCoordination), Some(DatabaseUnknownImpact), Some(ContractUnverified)}
  {
    hide InputRefusal, ReceiptRefusal, DesiredImages, Inferred, Requested, Import;
    WideTargets(req, Impact(req));
    CompositionCheckPasses(req, Impact(req));
    GateOrder(req, TargetSet(req));
  }

  lemma GateOrder(req: Request, targets: set<Component>)
    ensures InputRefusal(req) !in {Some(DatabaseCoordination), Some(DatabaseUnknownImpact), Some(ContractUnverified)}
    ensures ReceiptRefusal(Import(req.active), req.candidate, targets) !in
      {Some(DatabaseCoordination), Some(DatabaseUnknownImpact), Some(ContractUnverified)}
  {
  }

  // ------------------------------------------------------------ scope=selected

  lemma {:induction false} ChosenMembers(names: seq<Name>, c: Component)
    ensures c in Chosen(names) <==> Known(c) in names
  {
    if names != [] {
      assert names == [names[0]] + names[1..];
      ChosenMembers(names[1..], c);
    }
  }

  lemma SelectionGrows(names: seq<Name>, wider: seq<Name>)
    requires forall n | n in names :: n in wider
    ensures WithGo(Elements(Chosen(names))) <= WithGo(Elements(Chosen(wider)))
  {
    forall c | c in Elements(Chosen(names)) ensures c in Elements(Chosen(wider)) {
      ChosenMembers(names, c);
      ChosenMembers(wider, c);
    }
  }

  lemma ReceiptChecksGrow(active: Receipt, candidate: Candidate, targets: set<Component>, wider: set<Component>)
    requires ReceiptRefusal(active, candidate, targets).None? && targets <= wider
    ensures ReceiptRefusal(active, candidate, wider).None?
  {
    assert targets == ALL ==> wider == ALL;
  }

  /** Adding distinct known components to an accepted selection keeps it accepted. */
  lemma SelectionIsUpwardClosed(req: Request, names: seq<Name>)
    requires req.scope == Selected && Accepts(req)
    requires NamesKnown(names) && NamesDistinct(names)
    requires forall n | n in req.names :: n in names
    ensures TargetSet(req) <= TargetSet(req.(names := names))
    ensures Accepts(req.(names := names))
  {
    hide ReceiptRefusal, CoordinationRefusal, Refusal, Inferred, Import;
    var wider := req.(names := names);
    UnreachableRefusals(req);
    UnreachableRefusals(wider);
    assert req.names[0] in names;
    SelectionGrows(req.names, names);
    ReceiptChecksGrow(Import(req.active), req.candidate, TargetSet(req), TargetSet(wider));
    CoordinationIgnoresNames(req, wider, TargetSet(req), Impact(req));
    CoordinationGrows(wider, TargetSet(req), TargetSet(wider), Impact(req));
  }

  /** Every component then holds the candidate's image if the wider plan targets it, and otherwise what the narrower
      plan gave it. */
  lemma WiderSelectionImages(req: Request, names: seq<Name>, c: Component)
    requires req.scope == Selected && Accepts(req)
    requires NamesKnown(names) && NamesDistinct(names)
    requires forall n | n in req.names :: n in names
    ensures Lookup(Desired(req.(names := names)), ImageOf(c)) ==
      if c in TargetSet(req.(names := names)) then Some(Offered(req.candidate, c)) else Lookup(Desired(req), ImageOf(c))
  {
    var wider := req.(names := names);
    SelectionIsUpwardClosed(req, names);
    AcceptedComposable(req);
    AcceptedComposable(wider);
    ComposedImage(Import(req.active), req.candidate, TargetSet(req), c);
    ComposedImage(Import(req.active), req.candidate, TargetSet(wider), c);
  }

  lemma AcceptedComposable(req: Request)
    requires Accepts(req)
    ensures Composable(Import(req.active), TargetSet(req))
  {
    UnreachableRefusals(req);
    ReceiptChecksPassIff(Import(req.active), req.candidate, TargetSet(req));
  }

  lemma UntargetedIsActive(active: Receipt, targets: set<Component>, c: Component)
    requires Composable(active, targets) && c !in targets
    ensures ImageOf(c) in active
  {
    FamilyKeys(active.Keys);
  }

  lemma ComposedImage(active: Receipt, candidate: Candidate, targets: set<Component>, c: Component)
    requires Composable(active, targets)
    ensures Lookup(DesiredImages(active, candidate, targets), ImageOf(c)) ==
      if c in targets then Some(Offered(candidate, c)) else Lookup(active, ImageOf(c))
  {
    hide Composable, DesiredImages, Offered, OfferedInfrastructure, InFamily;
    ComposedKeys(active, candidate, targets);
    assert !TakesInfrastructure(active, targets, ImageOf(c));
    if c !in targets {
      UntargetedIsActive(active, targets, c);
    }
  }

  // ------------------------------------------------------------- planning again

  const CLEAN := Compatibility(NoDatabaseChange, Compatible)

  predicate UpToDate(active: Receipt, candidate: Candidate) {
    && (forall c: Component :: Lookup(active, ImageOf(c)) == Some(Offered(candidate, c)))
    && !GatewayDiffers(active, candidate)
  }

  lemma NothingSelectedIffUpToDate(req: Request)
    requires req.scope == Changed && req.active != map[]
    ensures TargetsWith(req, CLEAN) == {} <==> UpToDate(req.active, req.candidate)
  {
    if UpToDate(req.active, req.candidate) {
      assert Requested(req, CLEAN) == {};
    } else if GatewayDiffers(req.active, req.candidate) {
      assert Worker in TargetsWith(req, CLEAN);
    } else {
      var c: Component :| Lookup(req.active, ImageOf(c)) != Some(Offered(req.candidate, c));
      assert c in TargetsWith(req, CLEAN);
    }
  }

  lemma NoChangesIsFirst(active: Receipt, candidate: Candidate, targets: set<Component>)
    ensures ReceiptRefusal(active, candidate, targets) == Some(NoChanges) <==> targets == {}
  {
  }

  lemma CoordinationIsNotNoChanges(req: Request, targets: set<Component>, impact: Compatibility)
    ensures CoordinationRefusal(req, targets, impact) != Some(NoChanges)
  {
  }

  /** Against a nonempty receipt with compatible sources, scope=changed has nothing to do exactly when nothing
      differs. */
  lemma NoChangesIffUpToDate(req: Request)
    requires InputRefusal(req).None? && req.scope == Changed && req.active != map[] && Impact(req) == CLEAN
    ensures Refusal(req) == Some(NoChanges) <==> UpToDate(req.active, req.candidate)
  {
    NothingSelectedIffUpToDate(req);
    NoChangesFirst(req, CLEAN);
  }

  lemma NoChangesFirst(req: Request, impact: Compatibility)
    ensures CompositionRefusal(req, impact) == Some(NoChanges) <==> TargetsWith(req, impact) == {}
  {
    CompositionCheckPasses(req, impact);
    NoChangesIsFirst(Import(req.active), req.candidate, TargetsWith(req, impact));
    CoordinationIsNotNoChanges(req, TargetsWith(req, impact), impact);
  }

  lemma FullGateway(active: Receipt, candidate: Candidate)
    requires Composable(active, ALL) && InfrastructureComplete(candidate) && InfrastructurePinned(candidate)
    ensures LiteLlm in DesiredImages(active, candidate, ALL)
    ensures !GatewayDiffers(DesiredImages(active, candidate, ALL), candidate)
  {
    ComposedKeys(active, candidate, ALL);
    hide DesiredImages, Composable;
    assert LiteLlm in candidate.infrastructure.images;
    assert DesiredImages(active, candidate, ALL)[LiteLlm] == DesiredImage(active, candidate, ALL, ALL, LiteLlm);
  }

  lemma FullCompositionIsUpToDate(active: Receipt, candidate: Candidate)
    requires Composable(active, ALL) && InfrastructureComplete(candidate) && InfrastructurePinned(candidate)
    ensures UpToDate(DesiredImages(active, candidate, ALL), candidate)
    ensures DesiredImages(active, candidate, ALL) != map[]
  {
    hide DesiredImages, Composable, Offered, GatewayDiffers, InfrastructureComplete, InfrastructurePinned;
    FullGateway(active, candidate);
    forall c: Component
      ensures Lookup(DesiredImages(active, candidate, ALL), ImageOf(c)) == Some(Offered(candidate, c))
    {
      ComposedImage(active, candidate, ALL, c);
    }
  }

  /** Planning scope=changed for the candidate that a changed or full plan has just installed is refused as a no-op. */
  lemma ReplanningIsRefused(req: Request, again: Request)
    requires Accepts(req) && (req.scope == Changed || req.scope == Whole)
    requires InputRefusal(again).None? && again.scope == Changed && again.candidate == req.candidate
    requires again.active == Desired(req) && Impact(again) == CLEAN
    ensures Refusal(again) == Some(NoChanges)
  {
    var active := Import(req.active);
    UnreachableRefusals(req);
    ReceiptChecksPassIff(active, req.candidate, TargetSet(req));
    if req.scope == Changed {
      ChangedCovers(req, Impact(req));
      CoveringComposesEverything(active, req.candidate, TargetSet(req));
    } else {
      assert TargetSet(req) == ALL;
    }
    FullCompositionIsUpToDate(active, req.candidate);
    NoChangesIffUpToDate(again);
  }

  // -------------------------------------------------------- deploy then rollback

  lemma {:induction false} NothingMissing(list: seq<Component>, previous: Receipt)
    requires forall c | c in list :: ImageOf(c) in previous
    ensures FirstMissing(list, previous) == None
  {
    if list != [] {
      assert list[0] in list;
      assert forall c | c in list[1..] :: c in list;
      NothingMissing(list[1..], previous);
    }
  }

  lemma {:induction false} SomethingMissing(list: seq<Component>, previous: Receipt, i: nat)
    requires i < |list| && ImageOf(list[i]) !in previous
    ensures FirstMissing(list, previous).Some?
  {
    if i > 0 {
      SomethingMissing(list[1..], previous, i - 1);
    }
  }

  /** A rollback plans exactly when the receipts, the targets and the runtime agree, the gateway is known to one
      receipt and every target is known to the earlier one; otherwise it refuses or looks up a missing key. */
  lemma RollbackAcceptance(req: RollbackRequest)
    ensures PlannedRollback(req).RolledBack? <==>
      && RollbackRefusal(req).None?
      && (LiteLlm in req.active || LiteLlm in req.previous)
      && forall c | c in RollbackSet(req) :: ImageOf(c) in req.previous
  {
    var list := RollbackList(req);
    RollbackListElements(req);
    if forall c | c in list :: ImageOf(c) in req.previous {
      NothingMissing(list, req.previous);
    } else {
      var i :| 0 <= i < |list| && ImageOf(list[i]) !in req.previous;
      assert list[i] in Elements(list);
      SomethingMissing(list, req.previous, i);
    }
  }

  /** A new worker that the caller names although no receipt knows it. */
  predicate NamesUnknownWorker(req: RollbackRequest) {
    exists w | w in NewWorkers() :: Known(w) in req.names && ImageOf(w) !in req.active && ImageOf(w) !in req.previous
  }

  lemma TargetsKnownIff(req: RollbackRequest)
    requires RollbackRefusal(req).None?
    ensures (forall c | c in RollbackSet(req) :: ImageOf(c) in req.previous) <==> !NamesUnknownWorker(req)
  {
    if NamesUnknownWorker(req) {
      var w :| w in NewWorkers() && Known(w) in req.names && ImageOf(w) !in req.active && ImageOf(w) !in req.previous;
      ChosenMembers(req.names, w);
      assert w in RollbackSet(req);
    }
    FamilyKeys(req.previous.Keys);
    forall c | c in RollbackSet(req) && ImageOf(c) !in req.previous ensures NamesUnknownWorker(req) {
      assert c in RollbackSet(req) * GO && c in NewWorkers();
      ChosenMembers(req.names, c);
    }
  }

  /** A rollback that no check refuses still fails on a missing key exactly when neither receipt knows the gateway, or
      the caller named a new worker that neither receipt knows. */
  lemma KeyMissingIff(req: RollbackRequest)
    ensures PlannedRollback(req).KeyMissing? <==>
      && RollbackRefusal(req).None?
      && ((LiteLlm !in req.active && LiteLlm !in req.previous) || NamesUnknownWorker(req))
  {
    hide RollbackRefusal, Missing, RollbackSet, RollbackPlanFor;
    RollbackAcceptance(req);
    if RollbackRefusal(req).None? {
      TargetsKnownIff(req);
    }
  }

  /** One component to roll back on a host whose two receipts are the same. */
  function RollbackOf(receipt: Receipt, c: Component): RollbackRequest {
    RollbackRequest(receipt, receipt, [Known(c)], Commit("sha"), None, None, Some(Digest("runtime")),
      Some(Digest("runtime")))
  }

  lemma RollbackOfPasses(receipt: Receipt, c: Component)
    requires InFamily(receipt.Keys) && AllPinned(receipt)
    ensures RollbackRefusal(RollbackOf(receipt, c)).None?
  {
  }

  lemma {:induction false} FirstMissingIsMissing(list: seq<Component>, previous: Receipt)
    ensures FirstMissing(list, previous).Some? ==>
      exists c | c in list :: FirstMissing(list, previous).value == ImageOf(c) && ImageOf(c) !in previous
  {
    if list != [] && ImageOf(list[0]) in previous {
      FirstMissingIsMissing(list[1..], previous);
    }
  }

  /** Any pinned receipt without the gateway: rolling the administration site back to the same receipt fails. */
  lemma GatewayKeyMissing(receipt: Receipt)
    requires receipt.Keys == COMPOSITION - {LiteLlm} && AllPinned(receipt)
    ensures PlannedRollback(RollbackOf(receipt, Admin)) == KeyMissing(LiteLlm)
  {
    hide RollbackRefusal;
    FamilyIsAccepted(receipt.Keys);
    RollbackOfPasses(receipt, Admin);
  }

  /** Any pinned receipt that lacks just one new worker: rolling that worker back to the same receipt fails. */
  lemma WorkerKeyMissing(receipt: Receipt, w: Component)
    requires w in NewWorkers() && receipt.Keys == COMPOSITION - {ImageOf(w)} && AllPinned(receipt)
    ensures PlannedRollback(RollbackOf(receipt, w)) == KeyMissing(ImageOf(w))
  {
    hide RollbackRefusal, RollbackPlanFor, RollbackList;
    var req := RollbackOf(receipt, w);
    FamilyIsAccepted(receipt.Keys);
    RollbackOfPasses(receipt, w);
    CompositionMembers(LiteLlm);
    assert Known(w) in req.names;
    KeyMissingIff(req);
    FirstMissingIsMissing(RollbackList(req), receipt);
    forall c | ImageOf(c) !in receipt ensures c == w {
      CompositionMembers(ImageOf(c));
    }
  }

  /** Each component image of the receipt was built from the source recorded for the component. */
  ghost predicate Pairs(receipt: Receipt, sources: map<Component, Hex>, built: (Image, Hex) -> bool) {
    forall c | ImageOf(c) in receipt && c in sources :: built(receipt[ImageOf(c)], sources[c])
  }

  function ByComponent(sources: map<Name, Hex>): map<Component, Hex> {
    map c: Component | Known(c) in sources :: sources[Known(c)]
  }

  /** When the active and the earlier receipt pair images with sources, so does a rollback plan that gives sources. */
  lemma RollbackKeepsPairing(req: RollbackRequest, built: (Image, Hex) -> bool)
    requires PlannedRollback(req).RolledBack? && PlannedRollback(req).plan.componentSources.Some?
    requires Pairs(req.active, ByComponent(req.activeSources.value), built)
    requires Pairs(req.previous, ByComponent(req.previousSources.value), built)
    ensures Pairs(PlannedRollback(req).plan.desired, PlannedRollback(req).plan.componentSources.value, built)
    ensures PlannedRollback(req).plan.componentSources.value.Keys == ALL
  {
    hide RollbackRefusal, Missing, RollbackSet;
    RollbackAcceptance(req);
    var targets := RollbackSet(req);
    MergedPairing(req.active, req.previous, req.activeSources.value, req.previousSources.value, targets, built);
  }

  lemma MergedPairing(active: Receipt, previous: Receipt, activeSources: map<Name, Hex>,
      previousSources: map<Name, Hex>, targets: set<Component>, built: (Image, Hex) -> bool)
    requires activeSources.Keys == ALL_NAMES && previousSources.Keys == ALL_NAMES
    requires forall c | c in targets :: ImageOf(c) in previous
    requires Pairs(active, ByComponent(activeSources), built) && Pairs(previous, ByComponent(previousSources), built)
    ensures Pairs(Restored(active, previous, targets), MergedOrigins(activeSources, previousSources, targets), built)
  {
    var desired, merged := Restored(active, previous, targets), MergedOrigins(activeSources, previousSources, targets);
    forall c | ImageOf(c) in desired && c in merged ensures built(desired[ImageOf(c)], merged[c]) {
      assert Known(c) in ALL_NAMES;
      if c in targets {
        assert c in ByComponent(previousSources);
      } else {
        assert c in ByComponent(activeSources);
      }
    }
  }

  /** A rollback of exactly the targets of a deploy, from the receipt it installed to the receipt it replaced. */
  predicate UndoesDeploy(req: Request, back: RollbackRequest) {
    && back.active == Desired(req)
    && back.previous == req.active
    && NamesKnown(back.names) && NamesDistinct(back.names)
    && Elements(Chosen(back.names)) == TargetSet(req)
    && RuntimeMatches(back) && back.sourceSha.Commit?
  }

  lemma KeptImage(A: Receipt, candidate: Candidate, T: set<Component>, k: Key)
    requires InFamily(A.Keys) && Composable(A, T) && k in A && k != LiteLlm && !TakesImage(T, k)
    ensures k in DesiredImages(A, candidate, T) && DesiredImages(A, candidate, T)[k] == A[k]
  {
    hide Offered, OfferedInfrastructure, Composable, InFamily;
    ComposedKeys(A, candidate, T);
    FamilyKeys(A.Keys);
  }

  lemma UndoneRestores(A: Receipt, candidate: Candidate, T: set<Component>)
    requires InFamily(A.Keys) && Composable(A, T)
    requires ImageOf(VideoWorker) in A && ImageOf(TranscriptionWorker) in A
    ensures LiteLlm in DesiredImages(A, candidate, T)
    ensures Restored(DesiredImages(A, candidate, T), A, T) == A[LiteLlm := DesiredImages(A, candidate, T)[LiteLlm]]
  {
    var B := DesiredImages(A, candidate, T);
    var D := Restored(B, A, T);
    ComposedKeys(A, candidate, T);
    FamilyKeys(A.Keys);
    hide DesiredImages, DesiredImage, Composable, InFamily;
    forall k ensures k in D <==> k in A || k == LiteLlm {
      CompositionMembers(k);
    }
    forall k | k in D ensures D[k] == A[LiteLlm := B[LiteLlm]][k] {
      if !TakesImage(T, k) && k != LiteLlm {
        KeptImage(A, candidate, T, k);
      }
    }
  }

  lemma UndoRefusal(B: Receipt, back: RollbackRequest)
    requires back.active == B && B.Keys == COMPOSITION && AllPinned(back.previous)
    requires back.names != [] && NamesKnown(back.names) && NamesDistinct(back.names)
    requires RuntimeMatches(back) && back.sourceSha.Commit?
    ensures RollbackRefusal(back).None? <==>
      && InFamily(back.previous.Keys)
      && (RollbackSet(back) * GO != {} ==>
        ImageOf(VideoWorker) in back.previous && ImageOf(TranscriptionWorker) in back.previous)
  {
    CompositionInFamily();
    CompositionMembers(ImageOf(VideoWorker));
    CompositionMembers(ImageOf(TranscriptionWorker));
  }

  lemma UndoSet(req: Request, back: RollbackRequest)
    requires UndoesDeploy(req, back) && TargetSet(req) != {}
    ensures back.names != [] && RollbackSet(back) == TargetSet(req)
  {
    assert Coordinated(back.active, back.previous) <= GO;
    if TargetSet(req) * GO != {} {
      assert GO <= TargetSet(req);
    }
  }

  lemma PlannedShape(req: RollbackRequest)
    ensures PlannedRollback(req).KeyMissing? ==> RollbackRefusal(req).None? && !PlannedRollback(req).RolledBack?
    ensures PlannedRollback(req).RolledBack? ==>
      PlannedRollback(req).plan.desired == Restored(req.active, req.previous, RollbackSet(req))
  {
  }

  lemma UndoPlanned(A: Receipt, candidate: Candidate, T: set<Component>, back: RollbackRequest)
    requires Composable(Import(A), T) && AllPinned(A) && T == RollbackSet(back) && back.previous == A
    requires back.active == DesiredImages(Import(A), candidate, T)
    requires back.names != [] && NamesKnown(back.names) && NamesDistinct(back.names)
    requires RuntimeMatches(back) && back.sourceSha.Commit?
    ensures !PlannedRollback(back).KeyMissing?
    ensures PlannedRollback(back).RolledBack? <==>
      InFamily(A.Keys) && ImageOf(VideoWorker) in A && ImageOf(TranscriptionWorker) in A
  {
    hide RollbackRefusal, Missing, MergedSources, RollbackSet, Restored, DesiredImages, Import, Composable,
      InFamily, RuntimeMatches;
    ComposedKeys(Import(A), candidate, T);
    CompositionMembers(LiteLlm);
    UndoRefusal(back.active, back);
    RollbackAcceptance(back);
    PlannedShape(back);
    if InFamily(A.Keys) {
      if ImageOf(VideoWorker) in A && ImageOf(TranscriptionWorker) in A {
        EveryImageKnown(A);
      } else {
        MissingWorkerMeansAll(A, T);
      }
    }
  }

  lemma EveryImageKnown(A: Receipt)
    requires InFamily(A.Keys) && ImageOf(VideoWorker) in A && ImageOf(TranscriptionWorker) in A
    ensures forall c :: ImageOf(c) in A
  {
    FamilyKeys(A.Keys);
  }

  lemma MissingWorkerMeansAll(A: Receipt, T: set<Component>)
    requires Composable(Import(A), T) && InFamily(A.Keys)
    requires !(ImageOf(VideoWorker) in A && ImageOf(TranscriptionWorker) in A)
    ensures T * GO != {}
  {
    ImportAccepted(A);
    assert Api in ALL * GO;
  }

  /** Undoing an accepted deploy of B over A is planned exactly when A had an accepted key set with both new workers,
      and then it gives A back with B's gateway image; whatever A was, no lookup fails. */
  lemma DeployThenRollback(req: Request, back: RollbackRequest)
    requires Accepts(req) && UndoesDeploy(req, back)
    ensures !PlannedRollback(back).KeyMissing?
    ensures PlannedRollback(back).RolledBack? <==>
      InFamily(req.active.Keys) && ImageOf(VideoWorker) in req.active && ImageOf(TranscriptionWorker) in req.active
    ensures PlannedRollback(back).RolledBack? ==>
      && LiteLlm in back.active
      && PlannedRollback(back).plan.desired == req.active[LiteLlm := back.active[LiteLlm]]
  {
    var A, T := req.active, TargetSet(req);
    UnreachableRefusals(req);
    ReceiptChecksPassIff(Import(A), req.candidate, T);
    UndoSet(req, back);
    PinnedBeforeImport(A);
    UndoPlanned(A, req.candidate, T, back);
    PlannedShape(back);
    if PlannedRollback(back).RolledBack? {
      ImportAccepted(A);
      UndoneRestores(A, req.candidate, T);
    }
  }

  lemma PinnedBeforeImport(active: Receipt)
    requires AllPinned(Import(active))
    ensures AllPinned(active)
  {
    forall k | k in active ensures active[k].Pinned? { ImportKeeps(active, k); }
  }
}
