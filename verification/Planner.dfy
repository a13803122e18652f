/** Deploy and rollback plans computed from receipts, candidates and target lists. */
module Planner {
  import opened Options
  import opened Catalog

  // ---------------------------------------------------------------- inputs

  datatype Json = Text(image: Image) | NotText

  /** How the text of a public build profile was classified. */
  datatype Profile = ProfileRejected | ProfileValid(values: map<string, string>)

  datatype Item =
    | Item(image: Json, sourceSha: Hex, fingerprint: Hex, profile: Profile)
    | NotAnItem

  datatype Infrastructure = Absent | NotAMapping | Mapping(images: map<Key, Json>)

  datatype Candidate =
    | NotACandidate
    | Candidate(sourceSha: Hex, components: Option<map<Name, Item>>, infrastructure: Infrastructure)

  datatype Scope = Selected | Whole | Changed | OtherScope

  datatype Operation = DeployOperation | RecoveryOperation | OtherOperation

  datatype RecoveryReference = NoReference | Malformed | Reference(deploymentId: string, planSha256: string)

  /** What `git diff --quiet` did: an exit code, or the process could not be started. */
  datatype GitExit = Exited(code: int) | LaunchFailed

  /** The two path-restricted comparisons between an origin commit and the candidate commit. */
  datatype Checkout = Checkout(database: (Hex, Hex) -> GitExit, contract: (Hex, Hex) -> GitExit)

  datatype DatabaseChange = NoDatabaseChange | DatabaseRequired | DatabaseUnknown

  datatype ContractChange = Compatible | ReviewRequired | ContractUnknown

  datatype Compatibility = Compatibility(database: DatabaseChange, contract: ContractChange)

  const UNKNOWN := Compatibility(DatabaseUnknown, ContractUnknown)

  type Sources = Option<map<Name, Hex>>

  datatype Request = Request(
    active: Receipt,
    candidate: Candidate,
    names: seq<Name>,
    scope: Scope,
    sources: Sources,
    repo: Option<Checkout>,
    operation: Operation,
    recoveryOf: RecoveryReference,
    runtimeHash: Option<Hex>)

  // --------------------------------------------------------------- outputs

  /** The canonical hash of a receipt; a constructor, hence injective. */
  datatype StateHash = StateHash(of: Receipt)

  datatype Plan = Plan(
    operation: Operation,
    targets: seq<Component>,
    desired: Receipt,
    expected: StateHash,
    sourceSha: Hex,
    componentSources: map<Component, Hex>,
    publicProfiles: map<Component, map<string, string>>,
    runMigration: bool,
    runSeed: bool,
    compatibility: Compatibility,
    runtimeHash: Hex,
    recoveryOf: RecoveryReference)

  datatype PlanError =
    | BadCandidate | BadScope | BadTargets | DuplicateTarget | NoComponents | IncompleteCandidate | BadSourceSha
    | BadItem
    | NoChanges | IncompleteActive | UnpinnedActive | LegacyUpgrade | FirstDeployment | GatewayWithoutWorker
    | IncompleteInfrastructure | UnpinnedInfrastructure | IncompleteComposition
    | DatabaseCoordination | DatabaseUnknownImpact | ContractUnverified
    | BadOperation | RecoveryIncomplete | RuntimeIncomplete | RecoveryRuntimeHash

  datatype Outcome = Accepted(plan: Plan) | Rejected(error: PlanError)

  // --------------------------------------------------- compatibility of sources

  predicate SourcesComplete(sources: Sources) {
    sources.Some? && sources.value.Keys == ALL_NAMES
  }

  predicate CleanExit(exit: GitExit) {
    exit == Exited(0) || exit == Exited(1)
  }

  predicate Readable(repo: Checkout, origin: Hex, current: Hex) {
    && origin.Commit?
    && CleanExit(repo.database(origin, current))
    && CleanExit(repo.contract(origin, current))
  }

  /** One unreadable origin makes everything unknown; otherwise any differing origin is enough to require work. */
  function Inferred(current: Hex, sources: Sources, repo: Option<Checkout>): Compatibility {
    if !SourcesComplete(sources) || repo.None? then UNKNOWN
    else if exists n | n in sources.value :: !Readable(repo.value, sources.value[n], current) then UNKNOWN
    else
      Compatibility(
        if exists n | n in sources.value :: repo.value.database(sources.value[n], current) == Exited(1)
        then DatabaseRequired else NoDatabaseChange,
        if exists n | n in sources.value :: repo.value.contract(sources.value[n], current) == Exited(1)
        then ReviewRequired else Compatible)
  }

  /** The loop over the origins, in whatever order the mapping yields them and with its early returns. */
  method InferCompatibility(current: Hex, sources: Sources, repo: Option<Checkout>) returns (r: Compatibility)
    ensures r == Inferred(current, sources, repo)
  {
    if sources.None? || sources.value.Keys != ALL_NAMES || repo.None? {
      return UNKNOWN;
    }
    var origins := sources.value;
    var database, contract := NoDatabaseChange, Compatible;
    var rest := origins.Keys;
    while rest != {}
      invariant rest <= origins.Keys
      invariant forall n | n in origins && n !in rest :: Readable(repo.value, origins[n], current)
      invariant database == if exists n | n in origins && n !in rest ::
        repo.value.database(origins[n], current) == Exited(1)
                            then DatabaseRequired else NoDatabaseChange
      invariant contract == if exists n | n in origins && n !in rest ::
        repo.value.contract(origins[n], current) == Exited(1)
                            then ReviewRequired else Compatible
    {
      var n :| n in rest;
      var origin := origins[n];
      if !origin.Commit? {
        return UNKNOWN;
      }
      var db, api := repo.value.database(origin, current), repo.value.contract(origin, current);
      if !CleanExit(db) || !CleanExit(api) {
        return UNKNOWN;
      }
      if db == Exited(1) { database := DatabaseRequired; }
      if api == Exited(1) { contract := ReviewRequired; }
      rest := rest - {n};
    }
    r := Compatibility(database, contract);
  }

  // ------------------------------------------------------- candidate and targets

  predicate NeedsProfile(c: Component) {
    c in {Admin, Dashboard, Capture, Onboarding}
  }

  predicate ComponentImage(c: Component, image: Image) {
    image.Pinned? && image.repository.Published? && image.repository.component == c
  }

  predicate ItemValid(c: Component, item: Item) {
    && item.Item?
    && item.image.Text?
    && ComponentImage(c, item.image.image)
    && item.sourceSha.Commit?
    && item.fingerprint.Digest?
    && (NeedsProfile(c) ==> item.profile.ProfileValid?)
  }

  function CandidateSha(candidate: Candidate): Hex {
    if candidate.Candidate? then candidate.sourceSha else NotHex("")
  }

  function ItemAt(candidate: Candidate, c: Component): Item {
    if candidate.Candidate? && candidate.components.Some? && Known(c) in candidate.components.value
    then candidate.components.value[Known(c)] else NotAnItem
  }

  /** The image a candidate offers for a component. */
  function Offered(candidate: Candidate, c: Component): Image {
    var item := ItemAt(candidate, c);
    if item.Item? && item.image.Text? then item.image.image else Mutable("")
  }

  /** The image a candidate offers for an infrastructure key. */
  function OfferedInfrastructure(candidate: Candidate, k: Key): Image {
    if candidate.Candidate? && candidate.infrastructure.Mapping? && k in candidate.infrastructure.images
       && candidate.infrastructure.images[k].Text?
    then candidate.infrastructure.images[k].image else Mutable("")
  }

  predicate ItemsValid(candidate: Candidate) {
    forall c | c in ALL :: ItemValid(c, ItemAt(candidate, c))
  }

  predicate NamesKnown(names: seq<Name>) {
    forall n | n in names :: n.Known?
  }

  predicate NamesDistinct(names: seq<Name>) {
    forall i, j | 0 <= i < j < |names| :: names[i] != names[j]
  }

  function InputRefusal(req: Request): Option<PlanError> {
    if req.candidate.NotACandidate? then Some(BadCandidate)
    else if req.scope.OtherScope? then Some(BadScope)
    else if !NamesKnown(req.names) || (req.scope.Selected? && req.names == []) then Some(BadTargets)
    else if !NamesDistinct(req.names) then Some(DuplicateTarget)
    else if req.candidate.components.None? then Some(NoComponents)
    else if req.candidate.components.value.Keys != ALL_NAMES then Some(IncompleteCandidate)
    else if !req.candidate.sourceSha.Commit? then Some(BadSourceSha)
    else if !ItemsValid(req.candidate) then Some(BadItem)
    else None
  }

  /** The catalog components among the given names, in the given order. */
  function Chosen(names: seq<Name>): seq<Component> {
    if names == [] then []
    else (if names[0].Known? then [names[0].component] else []) + Chosen(names[1..])
  }

  function Elements(s: seq<Component>): set<Component> {
    set c | c in s
  }

  function Impact(req: Request): Compatibility {
    if req.active == map[] then Compatibility(DatabaseRequired, ContractUnknown)
    else Inferred(CandidateSha(req.candidate), req.sources, req.repo)
  }

  function Differing(active: Receipt, candidate: Candidate): set<Component> {
    set c | c in ALL && Lookup(active, ImageOf(c)) != Some(Offered(candidate, c))
  }

  predicate GatewayDiffers(active: Receipt, candidate: Candidate) {
    candidate.Candidate? &&
    match candidate.infrastructure
    case Absent => LiteLlm in active
    case NotAMapping => false
    case Mapping(images) =>
      match (Lookup(active, LiteLlm), Lookup(images, LiteLlm))
      case (Some(a), Some(b)) => Text(a) != b
      case (None, None) => false
      case _ => true
  }

  /** The components scope=changed selects against a nonempty receipt. */
  function ChangedSet(active: Receipt, candidate: Candidate, impact: Compatibility): set<Component> {
    if impact.contract != Compatible || impact.database == DatabaseUnknown then ALL
    else
      Differing(active, candidate)
      + (if GatewayDiffers(active, candidate) then {Worker} else {})
      + (if impact.database == DatabaseRequired then GO else {})
  }

  /** The components asked for, before the Go processes are kept together. */
  function Requested(req: Request, impact: Compatibility): set<Component> {
    match req.scope
    case Whole => ALL
    case Changed => if req.active == map[] then ALL else ChangedSet(req.active, req.candidate, impact)
    case _ => Elements(Chosen(req.names))
  }

  /** One Go process pulls in all of them. */
  function WithGo(targets: set<Component>): set<Component> {
    if targets * GO == {} then targets else targets + GO
  }

  function TargetsWith(req: Request, impact: Compatibility): set<Component> {
    WithGo(Requested(req, impact))
  }

  function TargetSet(req: Request): set<Component> {
    TargetsWith(req, Impact(req))
  }

  /** The members of a set in catalog order, looking at the first n catalog entries. */
  function OrderedUpTo(chosen: set<Component>, n: nat): seq<Component>
    requires n <= |COMPONENTS|
  {
    if n == 0 then []
    else OrderedUpTo(chosen, n - 1) + (if COMPONENTS[n - 1] in chosen then [COMPONENTS[n - 1]] else [])
  }

  function Ordered(chosen: set<Component>): seq<Component> {
    OrderedUpTo(chosen, |COMPONENTS|)
  }

  function TargetList(req: Request, impact: Compatibility): seq<Component> {
    if req.scope.Selected? && TargetsWith(req, impact) * GO == {} then Chosen(req.names)
    else Ordered(TargetsWith(req, impact))
  }

  lemma {:induction false} OrderedMembers(chosen: set<Component>, n: nat, c: Component)
    requires n <= |COMPONENTS|
    ensures c in OrderedUpTo(chosen, n) <==> c in chosen && c in COMPONENTS[..n]
  {
    if n > 0 {
      OrderedMembers(chosen, n - 1, c);
      assert COMPONENTS[..n] == COMPONENTS[..n - 1] + [COMPONENTS[n - 1]];
    }
  }

  /** The catalog-ordered list of a set holds exactly that set. */
  lemma OrderedElements(chosen: set<Component>)
    ensures Elements(Ordered(chosen)) == chosen
  {
    forall c: Component
      ensures c in Ordered(chosen) <==> c in chosen
    {
      EveryComponent(c);
      OrderedMembers(chosen, |COMPONENTS|, c);
      assert COMPONENTS[..|COMPONENTS|] == COMPONENTS;
    }
  }

  /** The listed targets of a plan are its target set, whichever order they are in. */
  lemma TargetListElements(req: Request, impact: Compatibility)
    requires !req.scope.OtherScope?
    ensures Elements(TargetList(req, impact)) == TargetsWith(req, impact)
  {
    OrderedElements(TargetsWith(req, impact));
  }

  // ------------------------------------------------------------ composition

  /** The monolithic receipt stands for one with the same image in each Go process it ran. */
  function Import(active: Receipt): Receipt {
    if active.Keys == LEGACY
    then active + map c | c in GO - {VideoWorker, TranscriptionWorker} :: ImageOf(c) := active[ImageOf(Api)]
    else active
  }

  predicate AllPinned(receipt: Receipt) {
    forall k | k in receipt :: receipt[k].Pinned?
  }

  predicate InfrastructureComplete(candidate: Candidate) {
    candidate.Candidate? && candidate.infrastructure.Mapping? && candidate.infrastructure.images.Keys == INFRASTRUCTURE
  }

  predicate InfrastructurePinned(candidate: Candidate) {
    candidate.Candidate? && candidate.infrastructure.Mapping? &&
    forall k | k in candidate.infrastructure.images ::
      candidate.infrastructure.images[k].Text? && candidate.infrastructure.images[k].image.Pinned?
  }

  /** Whether the infrastructure key k is taken from the candidate rather than kept. */
  predicate TakesInfrastructure(active: Receipt, targets: set<Component>, k: Key) {
    k in INFRASTRUCTURE && (active == map[] || (k == LiteLlm && (LiteLlm !in active || Worker in targets)))
  }

  predicate TakesImage(targets: set<Component>, k: Key) {
    k.ImageOf? && k.component in targets
  }

  /** What key k holds once the components of `done` have been written. */
  function DesiredImage(active: Receipt, candidate: Candidate, targets: set<Component>, done: set<Component>,
      k: Key): Image
  {
    if TakesImage(done, k) then Offered(candidate, k.component)
    else if TakesInfrastructure(active, targets, k) then OfferedInfrastructure(candidate, k)
    else if k in active then active[k]
    else Mutable("")
  }

  function DesiredImages(active: Receipt, candidate: Candidate, targets: set<Component>): Receipt {
    map k | k in active.Keys + COMPOSITION
      && (k in active || TakesInfrastructure(active, targets, k) || TakesImage(targets, k)) ::
      DesiredImage(active, candidate, targets, targets, k)
  }

  predicate LacksOptional(active: Receipt) {
    ImageOf(VideoWorker) !in active || ImageOf(TranscriptionWorker) !in active || LiteLlm !in active
  }

  /** The checks made once the targets are known, in the order they are made. */
  function CompositionRefusal(req: Request, impact: Compatibility): Option<PlanError> {
    var targets, active := TargetsWith(req, impact), Import(req.active);
    if ReceiptRefusal(active, req.candidate, targets).Some? then ReceiptRefusal(active, req.candidate, targets)
    else if !InFamily(DesiredImages(active, req.candidate, targets).Keys) then Some(IncompleteComposition)
    else CoordinationRefusal(req, targets, impact)
  }

  /** The checks on the imported receipt and the candidate's infrastructure, in the order they are made. */
  function ReceiptRefusal(active: Receipt, candidate: Candidate, targets: set<Component>): (refused: Option<PlanError>)
    ensures refused.None? ==> InfrastructureComplete(candidate) && InfrastructurePinned(candidate)
  {
    if targets == {} then Some(NoChanges)
    else if active != map[] && !InFamily(active.Keys) then Some(IncompleteActive)
    else if !AllPinned(active) then Some(UnpinnedActive)
    else if active != map[] && LacksOptional(active) && targets != ALL then Some(LegacyUpgrade)
    else if active == map[] && targets != ALL then Some(FirstDeployment)
    else if active != map[] && LiteLlm !in active && Worker !in targets then Some(GatewayWithoutWorker)
    else if !InfrastructureComplete(candidate) then Some(IncompleteInfrastructure)
    else if !InfrastructurePinned(candidate) then Some(UnpinnedInfrastructure)
    else None
  }

  /** The last gates: a database or contract change needs a coordinated selection, a recovery the whole composition. */
  function CoordinationRefusal(req: Request, targets: set<Component>, impact: Compatibility): Option<PlanError> {
    if impact.database != NoDatabaseChange && !(GO <= targets) then Some(DatabaseCoordination)
    else if impact.database == DatabaseUnknown && targets != ALL then Some(DatabaseUnknownImpact)
    else if impact.contract != Compatible && targets != ALL then Some(ContractUnverified)
    else if req.operation.OtherOperation? then Some(BadOperation)
    else if req.operation.RecoveryOperation? && (targets != ALL || !req.recoveryOf.Reference?) then
      Some(RecoveryIncomplete)
    else if req.runtimeHash.None? then Some(RuntimeIncomplete)
    else if req.operation.RecoveryOperation? && !req.runtimeHash.value.Digest? then Some(RecoveryRuntimeHash)
    else None
  }

  function Refusal(req: Request): Option<PlanError> {
    if InputRefusal(req).Some? then InputRefusal(req) else CompositionRefusal(req, Impact(req))
  }

  function SourceShas(candidate: Candidate): map<Component, Hex> {
    map c | c in ALL :: (if ItemAt(candidate, c).Item? then ItemAt(candidate, c).sourceSha else NotHex(""))
  }

  function Profiles(candidate: Candidate, targets: set<Component>): map<Component, map<string, string>> {
    map c | c in targets && NeedsProfile(c) && ItemAt(candidate, c).Item?
      && ItemAt(candidate, c).profile.ProfileValid? ::
      ItemAt(candidate, c).profile.values
  }

  function PlanWith(req: Request, impact: Compatibility): Plan {
    var targets, active := TargetsWith(req, impact), Import(req.active);
    var touchesGo := targets * GO != {} || req.operation.RecoveryOperation?;
    Plan(req.operation, TargetList(req, impact), DesiredImages(active, req.candidate, targets), StateHash(active),
         CandidateSha(req.candidate), SourceShas(req.candidate), Profiles(req.candidate, targets),
         touchesGo, touchesGo, impact,
         if req.runtimeHash.Some? then req.runtimeHash.value else NotHex(""), req.recoveryOf)
  }

  function Planned(req: Request): Outcome {
    match Refusal(req)
    case Some(e) => Rejected(e)
    case None => Accepted(PlanWith(req, Impact(req)))
  }

  // ---------------------------------------------------------------- methods

  method InCatalogOrder(chosen: set<Component>) returns (targets: seq<Component>)
    ensures targets == Ordered(chosen)
  {
    targets := [];
    for i := 0 to |COMPONENTS|
      invariant targets == OrderedUpTo(chosen, i)
    {
      if COMPONENTS[i] in chosen {
        targets := targets + [COMPONENTS[i]];
      }
    }
  }

  /** The catalog entries whose active image differs from the candidate's. */
  method DifferingTargets(active: Receipt, candidate: Candidate) returns (targets: seq<Component>)
    ensures targets == Ordered(Differing(active, candidate))
  {
    targets := [];
    for i := 0 to |COMPONENTS|
      invariant targets == OrderedUpTo(Differing(active, candidate), i)
    {
      EveryComponent(COMPONENTS[i]);
      if Lookup(active, ImageOf(COMPONENTS[i])) != Some(Offered(candidate, COMPONENTS[i])) {
        targets := targets + [COMPONENTS[i]];
      }
    }
  }

  lemma CatalogElements()
    ensures Elements(COMPONENTS) == ALL
  {
    forall c: Component ensures c in COMPONENTS && c in ALL { EveryComponent(c); }
  }

  method ChangedTargets(active: Receipt, candidate: Candidate, impact: Compatibility, complete: bool)
    returns (targets: seq<Component>)
    requires !complete ==> impact == UNKNOWN
    ensures Elements(targets) == ChangedSet(active, candidate, impact)
    ensures Elements(targets) * GO == {} ==> targets == Ordered(Elements(targets))
  {
    CatalogElements();
    targets := DifferingTargets(active, candidate);
    OrderedElements(Differing(active, candidate));
    if GatewayDiffers(active, candidate) && Worker !in targets {
      targets := targets + [Worker];
      assert Worker in Elements(targets) * GO;
    }
    if impact.contract != Compatible || impact.database == DatabaseUnknown {
      targets := COMPONENTS;
      assert Api in Elements(targets) * GO;
    } else if impact.database == DatabaseRequired {
      targets := Extend(targets, GO);
      assert Api in Elements(targets) * GO;
    }
    if !complete {
      targets := COMPONENTS;
    }
  }

  method SelectTargets(req: Request, impact: Compatibility) returns (targets: seq<Component>)
    requires !req.scope.OtherScope?
    requires req.active != map[] && !SourcesComplete(req.sources) ==> impact == UNKNOWN
    ensures targets == TargetList(req, impact)
  {
    CatalogElements();
    assert Api in ALL * GO;
    targets := Chosen(req.names);
    if req.scope.Whole? {
      targets := COMPONENTS;
    } else if req.scope.Changed? {
      if req.active == map[] {
        targets := COMPONENTS;
      } else {
        targets := ChangedTargets(req.active, req.candidate, impact, SourcesComplete(req.sources));
      }
    }
    assert Elements(targets) == Requested(req, impact);
    if Elements(targets) * GO != {} {
      targets := InCatalogOrder(Elements(targets) + GO);
    }
  }

  method Extend(targets: seq<Component>, extra: set<Component>) returns (r: seq<Component>)
    ensures Elements(r) == Elements(targets) + extra
  {
    r := targets;
    var rest := extra;
    while rest != {}
      invariant rest <= extra
      invariant Elements(r) + rest == Elements(targets) + extra
    {
      var c :| c in rest;
      if c !in r {
        r := r + [c];
      }
      rest := rest - {c};
    }
  }

  /** Fills the desired composition: infrastructure first, then one key per targeted component. */
  method Compose(active: Receipt, candidate: Candidate, targets: set<Component>) returns (desired: Receipt)
    requires InfrastructureComplete(candidate) && InfrastructurePinned(candidate)
    ensures desired == DesiredImages(active, candidate, targets)
  {
    var images := candidate.infrastructure.images;
    desired := active;
    if active == map[] {
      desired := map k | k in images :: images[k].image;
    } else if LiteLlm !in desired || Worker in targets {
      desired := desired[LiteLlm := images[LiteLlm].image];
    }
    var rest := ALL;
    while rest != {}
      invariant rest <= ALL
      invariant forall k :: k in desired <==>
        (k in active || TakesInfrastructure(active, targets, k) || TakesImage(targets - rest, k))
      invariant forall k | k in desired :: desired[k] == DesiredImage(active, candidate, targets, targets - rest, k)
    {
      var c :| c in rest;
      if c in targets {
        desired := desired[ImageOf(c) := Offered(candidate, c)];
      }
      rest := rest - {c};
    }
    forall c: Component ensures c in ALL { EveryComponent(c); }
    assert targets - {} == targets;
  }

  method CreatePlan(req: Request) returns (r: Outcome)
    ensures r == Planned(req)
  {
    var refused := InputRefusal(req);
    if refused.Some? {
      return Rejected(refused.value);
    }
    var impact := Compatibility(DatabaseRequired, ContractUnknown);
    if req.active != map[] {
      impact := InferCompatibility(req.candidate.sourceSha, req.sources, req.repo);
      if !SourcesComplete(req.sources) {
        impact := UNKNOWN;
      }
    }
    r := PlanComposition(req, impact);
  }

  method PlanComposition(req: Request, impact: Compatibility) returns (r: Outcome)
    requires InputRefusal(req).None?
    requires req.active != map[] && !SourcesComplete(req.sources) ==> impact == UNKNOWN
    ensures r == match CompositionRefusal(req, impact)
                 case Some(e) => Rejected(e)
                 case None => Accepted(PlanWith(req, impact))
  {
    hide ReceiptRefusal, DesiredImages, TargetList, InFamily, SourceShas, Profiles;
    var list := SelectTargets(req, impact);
    TargetListElements(req, impact);
    var targets := Elements(list);
    var active := req.active;
    if active.Keys == LEGACY {
      active := active + map c | c in GO - {VideoWorker, TranscriptionWorker} :: ImageOf(c) := active[ImageOf(Api)];
    }
    var refused := ReceiptRefusal(active, req.candidate, targets);
    if refused.Some? {
      return Rejected(refused.value);
    }
    var desired := Compose(active, req.candidate, targets);
    if !InFamily(desired.Keys) {
      return Rejected(IncompleteComposition);
    }
    refused := CoordinationRefusal(req, targets, impact);
    if refused.Some? {
      return Rejected(refused.value);
    }
    var touchesGo := targets * GO != {} || req.operation.RecoveryOperation?;
    r := Accepted(Plan(req.operation, list, desired, StateHash(active), req.candidate.sourceSha,
                       SourceShas(req.candidate), Profiles(req.candidate, targets),
                       touchesGo, touchesGo, impact, req.runtimeHash.value, req.recoveryOf));
  }
}
