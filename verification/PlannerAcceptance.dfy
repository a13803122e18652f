/** When the two planners plan, why they refuse and what their plans hold, said without the checks they are made of. */
module PlannerAcceptance {
  import opened Options
  import opened Catalog
  import opened Planner
  import opened Rollback
  import opened PlannerTheorems

  const GO_PROCESSES: set<Component> := {Api, Worker, Scheduler, VideoWorker, TranscriptionWorker, Operations}

  const SITES: set<Component> := {Admin, Dashboard, Capture, Onboarding}

  lemma GoProcesses(c: Component)
    ensures c in GO <==> c in GO_PROCESSES
    ensures NeedsProfile(c) <==> c in SITES
    ensures c in ALL
  {
  }

  lemma GoIsGoProcesses()
    ensures GO == GO_PROCESSES
  {
    forall c: Component ensures c in GO <==> c in GO_PROCESSES { GoProcesses(c); }
  }

  // ------------------------------------------------------------------ deploys

  /** The component's entry: its own published image pinned by digest, a commit, a fingerprint, and a valid profile for
      the four sites. */
  ghost predicate Deployable(item: Item, c: Component) {
    && item.Item? && item.image.Text? && item.image.image.Pinned?
    && item.image.image.repository.Published? && item.image.image.repository.component == c
    && item.sourceSha.Commit? && item.fingerprint.Digest?
    && (c in SITES ==> item.profile.ProfileValid?)
  }

  ghost predicate WholeCandidate(candidate: Candidate) {
    && candidate.Candidate? && candidate.sourceSha.Commit? && candidate.components.Some?
    && (forall name :: name in candidate.components.value <==> name.Known?)
    && (forall c: Component :: Known(c) in candidate.components.value
                               && Deployable(candidate.components.value[Known(c)], c))
  }

  ghost predicate WellAsked(req: Request) {
    && !req.scope.OtherScope?
    && (forall name | name in req.names :: name.Known?)
    && (req.scope.Selected? ==> req.names != [])
    && (forall i, j | 0 <= i < j < |req.names| :: req.names[i] != req.names[j])
  }

  ghost predicate FiveInfrastructureImages(candidate: Candidate) {
    && candidate.Candidate? && candidate.infrastructure.Mapping?
    && (forall k :: k in candidate.infrastructure.images <==> k in {Postgres, Dragonfly, Rabbitmq, Caddy, LiteLlm})
    && (forall k | k in candidate.infrastructure.images ::
          candidate.infrastructure.images[k].Text? && candidate.infrastructure.images[k].image.Pinned?)
  }

  /** A receipt to deploy over: none yet, or an accepted one; without all sixteen keys everything must be targeted. */
  ghost predicate Replaceable(active: Receipt, targets: set<Component>) {
    && (forall k | k in active :: active[k].Pinned?)
    && (active == map[] || active.Keys in ACCEPTED)
    && ((forall c: Component :: c in targets) || (forall k: Key | !k.OtherImage? :: k in active))
  }

  /** A database change takes all Go processes along; what is not known to be compatible takes everything. */
  ghost predicate CoversImpact(targets: set<Component>, impact: Compatibility) {
    && (impact.database != NoDatabaseChange ==> GO_PROCESSES <= targets)
    && (impact.database == DatabaseUnknown || impact.contract != Compatible ==> forall c: Component :: c in targets)
  }

  /** A deploy, or a recovery of everything that names the blocked deployment and a full runtime hash. */
  ghost predicate OperationAllowed(req: Request, targets: set<Component>) {
    && req.runtimeHash.Some?
    && (req.operation.DeployOperation? ||
        (&& req.operation.RecoveryOperation? && (forall c: Component :: c in targets)
         && req.recoveryOf.Reference? && req.runtimeHash.value.Digest?))
  }

  lemma InputPassesIff(req: Request)
    ensures InputRefusal(req).None? <==> WholeCandidate(req.candidate) && WellAsked(req)
  {
    if req.candidate.Candidate? && req.candidate.components.Some? {
      AllNames(req.candidate.components.value.Keys);
      if req.candidate.components.value.Keys == ALL_NAMES {
        ItemsAreDeployable(req.candidate);
      }
    }
  }

  lemma AllNames(names: set<Name>)
    ensures names == ALL_NAMES <==> forall name :: name in names <==> name.Known?
  {
    forall name ensures name in ALL_NAMES <==> name.Known? {
      if name.Known? { GoProcesses(name.component); }
    }
  }

  lemma ItemsAreDeployable(candidate: Candidate)
    requires candidate.Candidate? && candidate.components.Some? && candidate.components.value.Keys == ALL_NAMES
    ensures ItemsValid(candidate) <==>
      forall c: Component :: Known(c) in candidate.components.value
                             && Deployable(candidate.components.value[Known(c)], c)
  {
    forall c: Component
      ensures Known(c) in candidate.components.value
      ensures ItemValid(c, ItemAt(candidate, c)) <==> Deployable(candidate.components.value[Known(c)], c)
    {
      GoProcesses(c);
      assert Known(c) in ALL_NAMES;
    }
  }

  lemma EverythingTargeted(targets: set<Component>)
    ensures targets == ALL <==> forall c: Component :: c in targets
  {
    forall c: Component ensures c in ALL { GoProcesses(c); }
  }

  lemma ReceiptPassesIff(active: Receipt, candidate: Candidate, targets: set<Component>)
    ensures ReceiptRefusal(active, candidate, targets).None? <==>
      targets != {} && Replaceable(active, targets) && FiveInfrastructureImages(candidate)
  {
    hide ReceiptRefusal;
    ReceiptChecksPassIff(active, candidate, targets);
    EverythingTargeted(targets);
    FamilyIsAccepted(active.Keys);
    FamilyKeys(active.Keys);
    FiveImages(candidate);
    if InFamily(active.Keys) {
      LacksOptionalIff(active);
    }
  }

  lemma LacksOptionalIff(active: Receipt)
    requires InFamily(active.Keys)
    ensures LacksOptional(active) <==> !forall k: Key | !k.OtherImage? :: k in active
  {
    FamilyKeys(active.Keys);
  }

  lemma FiveImages(candidate: Candidate)
    ensures FiveInfrastructureImages(candidate) <==>
      InfrastructureComplete(candidate) && InfrastructurePinned(candidate)
  {
  }

  lemma CoordinationPassesIff(req: Request, targets: set<Component>, impact: Compatibility)
    ensures CoordinationRefusal(req, targets, impact).None? <==>
      CoversImpact(targets, impact) && OperationAllowed(req, targets)
  {
    GoIsGoProcesses();
    EverythingTargeted(targets);
  }

  /** Every input: create_plan plans exactly when the candidate is whole, the request well formed, something is
      targeted, the receipt can be replaced, the five infrastructure images are pinned, the targets cover the impact,
      and the operation is allowed. */
  lemma PlansIff(req: Request)
    ensures Planned(req).Accepted? <==>
      && WholeCandidate(req.candidate) && WellAsked(req)
      && TargetSet(req) != {} && Replaceable(Import(req.active), TargetSet(req))
      && FiveInfrastructureImages(req.candidate)
      && CoversImpact(TargetSet(req), Impact(req)) && OperationAllowed(req, TargetSet(req))
  {
    hide InputRefusal, ReceiptRefusal, CoordinationRefusal, WholeCandidate, WellAsked, Replaceable, Import, TargetSet,
      FiveInfrastructureImages, CoversImpact, OperationAllowed, PlanWith, Impact;
    UnreachableRefusals(req);
    InputPassesIff(req);
    ReceiptPassesIff(Import(req.active), req.candidate, TargetSet(req));
    CoordinationPassesIff(req, TargetSet(req), Impact(req));
  }

  // ------------------------------------------------- the parts of the decision

  const MONOLITH: set<Key> :=
    {ImageOf(Api), ImageOf(Keycloak), ImageOf(Admin), ImageOf(Dashboard), ImageOf(Capture), ImageOf(Onboarding),
     Postgres, Dragonfly, Rabbitmq, Caddy}

  const SPLIT_OFF: set<Key> := {ImageOf(Worker), ImageOf(Scheduler), ImageOf(Operations)}

  lemma ImportedKey(active: Receipt, k: Key)
    requires active.Keys == MONOLITH
    ensures k in Import(active) <==> k in MONOLITH || k in SPLIT_OFF
    ensures k in MONOLITH ==> Import(active)[k] == active[k]
    ensures k in SPLIT_OFF ==> Import(active)[k] == active[ImageOf(Api)]
  {
    assert MONOLITH == LEGACY;
    GoIsGoProcesses();
    if k in MONOLITH {
      ImportKeeps(active, k);
    } else if k.ImageOf? {
      assert k in SPLIT_OFF <==> k.component in GO - {VideoWorker, TranscriptionWorker};
    }
  }

  /** The monolithic receipt becomes an accepted one in which every Go process it ran keeps the API image; any other
      receipt stays as it is. */
  lemma ImportMeans(active: Receipt)
    ensures active.Keys == MONOLITH ==>
      && Import(active).Keys == MONOLITH + SPLIT_OFF && Import(active).Keys in ACCEPTED
      && (forall k | k in MONOLITH :: Import(active)[k] == active[k])
      && (forall k | k in SPLIT_OFF :: Import(active)[k] == active[ImageOf(Api)])
    ensures active.Keys != MONOLITH ==> Import(active) == active
  {
    assert MONOLITH == LEGACY;
    if active.Keys == MONOLITH {
      hide Import;
      forall k ensures k in Import(active) <==> k in MONOLITH || k in SPLIT_OFF
        ensures k in MONOLITH ==> Import(active)[k] == active[k]
        ensures k in SPLIT_OFF ==> Import(active)[k] == active[ImageOf(Api)]
      {
        ImportedKey(active, k);
      }
      assert Import(active).Keys == MONOLITH + SPLIT_OFF;
      SplitIsAccepted();
    }
  }

  lemma SplitMember(k: Key)
    ensures k in MONOLITH + SPLIT_OFF <==> !k.OtherImage? && !IsOptional(k)
  {
    if k.ImageOf? {
      match k.component {
        case VideoWorker =>
        case TranscriptionWorker =>
        case _ =>
      }
    }
  }

  lemma SplitIsAccepted()
    ensures MONOLITH + SPLIT_OFF in ACCEPTED
  {
    forall k: Key ensures k in MONOLITH + SPLIT_OFF <==> !k.OtherImage? && !IsOptional(k) { SplitMember(k); }
    FamilyKeys(MONOLITH + SPLIT_OFF);
    FamilyIsAccepted(MONOLITH + SPLIT_OFF);
  }

  predicate Unreadable(repo: Checkout, origin: Hex, current: Hex) {
    || !origin.Commit?
    || (repo.database(origin, current) != Exited(0) && repo.database(origin, current) != Exited(1))
    || (repo.contract(origin, current) != Exited(0) && repo.contract(origin, current) != Exited(1))
  }

  /** Unknown when a source is missing or unreadable; otherwise a change counts when any origin shows it. */
  lemma InferredMeans(current: Hex, sources: Sources, repo: Option<Checkout>)
    ensures var impact := Inferred(current, sources, repo);
      if sources.None? || repo.None? || (exists name :: (name in sources.value) != name.Known?)
         || exists name | name in sources.value :: Unreadable(repo.value, sources.value[name], current)
      then impact == Compatibility(DatabaseUnknown, ContractUnknown)
      else
        && impact.database == (if forall name | name in sources.value ::
                                    repo.value.database(sources.value[name], current) == Exited(0)
                               then NoDatabaseChange else DatabaseRequired)
        && impact.contract == (if forall name | name in sources.value ::
                                    repo.value.contract(sources.value[name], current) == Exited(0)
                               then Compatible else ReviewRequired)
  {
    if sources.Some? {
      AllNames(sources.value.Keys);
    }
  }

  ghost predicate NamesGo(names: seq<Name>) {
    exists c | c in GO_PROCESSES :: Known(c) in names
  }

  /** A selection is what is named, and all Go processes as soon as one is named; scope=all is everything. */
  lemma SelectionMeans(req: Request, c: Component)
    ensures req.scope == Whole ==> c in TargetSet(req)
    ensures req.scope == Selected ==>
      (c in TargetSet(req) <==> Known(c) in req.names || (c in GO_PROCESSES && NamesGo(req.names)))
  {
    GoIsGoProcesses();
    GoProcesses(c);
    NamedElements(req.names);
    hide Chosen, Elements, Impact, NamesGo;
  }

  /** What a changed plan has to move by itself. */
  ghost predicate Moves(req: Request, c: Component) {
    || Lookup(req.active, ImageOf(c)) != Some(Offered(req.candidate, c))
    || (c == Worker && Lookup(req.active, LiteLlm) != Some(OfferedInfrastructure(req.candidate, LiteLlm)))
    || (c in GO_PROCESSES && Impact(req).database == DatabaseRequired)
  }

  /** scope=changed is everything when nothing is active or the impact is not clear; otherwise it is what differs, the
      worker for another gateway, and all Go processes for a database change or as soon as one of them moves. */
  lemma ChangesMean(req: Request, c: Component)
    requires req.scope == Changed && FiveInfrastructureImages(req.candidate)
    ensures req.active == map[] || Impact(req).contract != Compatible || Impact(req).database == DatabaseUnknown ==>
      c in TargetSet(req)
    ensures req.active != map[] && Impact(req).contract == Compatible && Impact(req).database != DatabaseUnknown ==>
      (c in TargetSet(req) <==> Moves(req, c) || (c in GO_PROCESSES && exists d | d in GO_PROCESSES :: Moves(req, d)))
  {
    GoIsGoProcesses();
    GoProcesses(c);
    if req.active != map[] && Impact(req).contract == Compatible && Impact(req).database != DatabaseUnknown {
      hide Impact, Offered;
      forall d ensures d in Requested(req, Impact(req)) <==> Moves(req, d) { RequestedMoves(req, d); }
      if exists d | d in GO_PROCESSES :: Moves(req, d) {
        var d :| d in GO_PROCESSES && Moves(req, d);
        assert d in Requested(req, Impact(req)) * GO;
      }
    }
  }

  lemma RequestedMoves(req: Request, c: Component)
    requires req.scope == Changed && FiveInfrastructureImages(req.candidate) && req.active != map[]
    requires Impact(req).contract == Compatible && Impact(req).database != DatabaseUnknown
    ensures c in Requested(req, Impact(req)) <==> Moves(req, c)
  {
    hide Impact, Offered;
    GoIsGoProcesses();
    GoProcesses(c);
    GatewayMoves(req.active, req.candidate);
  }

  lemma GatewayMoves(active: Receipt, candidate: Candidate)
    requires FiveInfrastructureImages(candidate)
    ensures GatewayDiffers(active, candidate) <==>
      Lookup(active, LiteLlm) != Some(OfferedInfrastructure(candidate, LiteLlm))
  {
    assert LiteLlm in candidate.infrastructure.images;
  }

  // -------------------------------------------------------------------- plans

  lemma {:induction false} OrderedDistinct(chosen: set<Component>, n: nat)
    requires n <= |COMPONENTS|
    ensures Distinct(OrderedUpTo(chosen, n))
  {
    if n > 0 {
      OrderedDistinct(chosen, n - 1);
      OrderedMembers(chosen, n - 1, COMPONENTS[n - 1]);
      CatalogIsDistinct(n - 1);
    }
  }

  lemma CatalogIsDistinct(n: nat)
    requires n < |COMPONENTS|
    ensures COMPONENTS[n] !in COMPONENTS[..n]
  {
  }

  lemma {:induction false} ChosenDistinct(names: seq<Name>)
    requires NamesDistinct(names)
    ensures Distinct(Chosen(names))
  {
    if names != [] {
      ChosenDistinct(names[1..]);
      if names[0].Known? {
        ChosenMembers(names[1..], names[0].component);
      }
    }
  }

  /** What an accepted plan says: its targets once each, the composition key by key, the state it replaces, the
      candidate's sources for all components and profiles for the targeted sites, and whether data is migrated. */
  ghost predicate Says(plan: Plan, req: Request)
    requires req.candidate.Candidate? && req.runtimeHash.Some?
  {
    && plan.operation == req.operation && plan.recoveryOf == req.recoveryOf
    && plan.runtimeHash == req.runtimeHash.value && plan.compatibility == Impact(req)
    && plan.sourceSha == req.candidate.sourceSha && plan.expected == StateHash(Import(req.active))
    && Distinct(plan.targets) && (forall c: Component :: c in plan.targets <==> c in TargetSet(req))
    && plan.runSeed == plan.runMigration
    && (plan.runMigration <==>
          req.operation == RecoveryOperation || exists c | c in GO_PROCESSES :: c in TargetSet(req))
  }

  ghost predicate GivesSources(plan: Plan, candidate: Candidate) {
    && (forall c: Component :: c in plan.componentSources && Known(c) in Components(candidate)
                               && Components(candidate)[Known(c)].Item?
                               && plan.componentSources[c] == Components(candidate)[Known(c)].sourceSha)
    && (forall c: Component :: c in plan.publicProfiles <==> c in plan.targets && c in SITES)
    && (forall c: Component | c in plan.publicProfiles ::
          Components(candidate)[Known(c)].profile == ProfileValid(plan.publicProfiles[c]))
  }

  function Components(candidate: Candidate): map<Name, Item> {
    if candidate.Candidate? && candidate.components.Some? then candidate.components.value else map[]
  }

  /** Targets from the candidate; at first all infrastructure too, later only the gateway when the worker moves or there
      was none; everything else as it was. */
  ghost predicate Composes(desired: Receipt, active: Receipt, candidate: Candidate, targets: set<Component>) {
    && (forall k :: k in desired <==> !k.OtherImage?)
    && (forall c: Component :: desired[ImageOf(c)] ==
          if c in targets then Offered(candidate, c)
          else if ImageOf(c) in active then active[ImageOf(c)] else Mutable(""))
    && (forall k | k in {Postgres, Dragonfly, Rabbitmq, Caddy} ::
          desired[k] == if k in active then active[k] else OfferedInfrastructure(candidate, k))
    && desired[LiteLlm] == (if LiteLlm in active && Worker !in targets then active[LiteLlm]
                            else OfferedInfrastructure(candidate, LiteLlm))
  }

  lemma PlanComposes(active: Receipt, candidate: Candidate, targets: set<Component>)
    requires Composable(active, targets)
    ensures Composes(DesiredImages(active, candidate, targets), active, candidate, targets)
  {
    ComposedKeys(active, candidate, targets);
    var desired := DesiredImages(active, candidate, targets);
    forall k ensures k in desired <==> !k.OtherImage? { CompositionMembers(k); }
    hide DesiredImages, DesiredImage, Composable, Offered, OfferedInfrastructure;
    forall k | k in {Postgres, Dragonfly, Rabbitmq, Caddy}
      ensures desired[k] == if k in active then active[k] else OfferedInfrastructure(candidate, k)
    {
      InfrastructureKept(active, targets, k);
      InfrastructureDesired(active, candidate, targets, k);
    }
    forall c: Component
      ensures desired[ImageOf(c)] == if c in targets then Offered(candidate, c)
                                     else if ImageOf(c) in active then active[ImageOf(c)] else Mutable("")
    {
      ComponentDesired(active, candidate, targets, c);
    }
    GatewayKept(active, targets);
    InfrastructureDesired(active, candidate, targets, LiteLlm);
  }

  lemma InfrastructureDesired(active: Receipt, candidate: Candidate, targets: set<Component>, k: Key)
    requires !k.ImageOf?
    ensures DesiredImage(active, candidate, targets, targets, k) ==
      if TakesInfrastructure(active, targets, k) then OfferedInfrastructure(candidate, k)
      else if k in active then active[k] else Mutable("")
  {
  }

  lemma ComponentDesired(active: Receipt, candidate: Candidate, targets: set<Component>, c: Component)
    ensures DesiredImage(active, candidate, targets, targets, ImageOf(c)) ==
      if c in targets then Offered(candidate, c)
      else if ImageOf(c) in active then active[ImageOf(c)] else Mutable("")
  {
    assert !TakesInfrastructure(active, targets, ImageOf(c));
  }

  lemma InfrastructureKept(active: Receipt, targets: set<Component>, k: Key)
    requires Composable(active, targets) && k in {Postgres, Dragonfly, Rabbitmq, Caddy}
    ensures TakesInfrastructure(active, targets, k) <==> k !in active
  {
    FamilyKeys(active.Keys);
  }

  lemma GatewayKept(active: Receipt, targets: set<Component>)
    requires Composable(active, targets)
    ensures TakesInfrastructure(active, targets, LiteLlm) <==> !(LiteLlm in active && Worker !in targets)
  {
    assert active == map[] ==> Worker in ALL;
  }

  /** The images of a plan come from the candidate's own entries for each component and each infrastructure key. */
  lemma OffersMean(candidate: Candidate)
    requires WholeCandidate(candidate) && FiveInfrastructureImages(candidate)
    ensures forall c: Component :: Components(candidate)[Known(c)].image == Text(Offered(candidate, c))
    ensures forall k | k in candidate.infrastructure.images ::
      candidate.infrastructure.images[k] == Text(OfferedInfrastructure(candidate, k))
  {
    forall c: Component ensures Components(candidate)[Known(c)].image == Text(Offered(candidate, c)) {
      assert Deployable(candidate.components.value[Known(c)], c);
    }
  }

  /** The contents of every accepted plan. */
  lemma PlanContents(req: Request)
    requires Planned(req).Accepted?
    ensures req.candidate.Candidate? && req.runtimeHash.Some?
    ensures Says(Planned(req).plan, req) && GivesSources(Planned(req).plan, req.candidate)
    ensures Composes(Planned(req).plan.desired, Import(req.active), req.candidate, TargetSet(req))
  {
    PlansIff(req);
    AcceptedComposable(req);
    PlanComposes(Import(req.active), req.candidate, TargetSet(req));
    PlanSays(req);
    PlanGivesSources(req);
  }

  lemma TargetsListed(req: Request)
    requires WellAsked(req)
    ensures var list := TargetList(req, Impact(req));
      Distinct(list) && forall c: Component :: c in list <==> c in TargetSet(req)
  {
    hide Impact, Requested, OrderedUpTo, Chosen;
    var list := TargetList(req, Impact(req));
    TargetListElements(req, Impact(req));
    forall c: Component ensures c in list <==> c in TargetSet(req) {
      assert c in Elements(list) <==> c in list;
    }
    OrderedDistinct(TargetSet(req), |COMPONENTS|);
    ChosenDistinct(req.names);
  }

  lemma PlanSays(req: Request)
    requires WholeCandidate(req.candidate) && WellAsked(req) && req.runtimeHash.Some?
    ensures Says(PlanWith(req, Impact(req)), req)
  {
    TargetsListed(req);
    TouchesGo(TargetSet(req));
    hide DesiredImages, Import, Impact, SourceShas, Profiles, TargetList, TargetSet, TargetsWith;
    assert TargetsWith(req, Impact(req)) == TargetSet(req) by { SameTargets(req); }
  }

  lemma SameTargets(req: Request)
    ensures TargetsWith(req, Impact(req)) == TargetSet(req)
  {
  }

  lemma TouchesGo(targets: set<Component>)
    ensures targets * GO != {} <==> exists c | c in GO_PROCESSES :: c in targets
  {
    GoIsGoProcesses();
    if exists c | c in GO_PROCESSES :: c in targets {
      var c :| c in GO_PROCESSES && c in targets;
      assert c in targets * GO;
    }
  }

  lemma PlanGivesSources(req: Request)
    requires WholeCandidate(req.candidate) && WellAsked(req)
    ensures GivesSources(PlanWith(req, Impact(req)), req.candidate)
  {
    hide DesiredImages, Import, Impact, Requested;
    var plan := PlanWith(req, Impact(req));
    TargetListElements(req, Impact(req));
    forall c: Component ensures c in plan.targets <==> c in TargetSet(req) {
      assert c in Elements(plan.targets) <==> c in plan.targets;
    }
    forall c: Component
      ensures c in plan.componentSources && Components(req.candidate)[Known(c)].Item?
      ensures plan.componentSources[c] == Components(req.candidate)[Known(c)].sourceSha
    {
      GoProcesses(c);
    }
    forall c: Component
      ensures c in plan.publicProfiles <==> c in plan.targets && c in SITES
      ensures c in plan.publicProfiles ==>
        Components(req.candidate)[Known(c)].profile == ProfileValid(plan.publicProfiles[c])
    {
      GoProcesses(c);
    }
  }

  /** A database change is always migrated, by a plan that moves every Go process. */
  lemma DatabaseChangeIsMigrated(req: Request)
    requires Planned(req).Accepted? && Planned(req).plan.compatibility.database != NoDatabaseChange
    ensures Planned(req).plan.runMigration && forall c | c in GO_PROCESSES :: c in Planned(req).plan.targets
  {
    hide Planned, TargetSet, Impact, Import;
    PlansIff(req);
    PlanContents(req);
    assert Api in TargetSet(req);
  }

  // ----------------------------------------------------------------- refusals

  ghost predicate InputHolds(e: PlanError, req: Request) {
    match e
    case BadCandidate => req.candidate.NotACandidate?
    case BadScope => req.scope.OtherScope?
    case BadTargets => (exists name | name in req.names :: name.Unknown?) || (req.scope.Selected? && req.names == [])
    case DuplicateTarget => exists i, j | 0 <= i < j < |req.names| :: req.names[i] == req.names[j]
    case NoComponents => req.candidate.Candidate? && req.candidate.components.None?
    case IncompleteCandidate => exists name :: (name in Components(req.candidate)) != name.Known?
    case BadSourceSha => req.candidate.Candidate? && !req.candidate.sourceSha.Commit?
    case BadItem =>
      exists c: Component ::
        Known(c) in Components(req.candidate) && !Deployable(Components(req.candidate)[Known(c)], c)
    case _ => false
  }

  ghost predicate ReceiptHolds(e: PlanError, active: Receipt, candidate: Candidate, targets: set<Component>) {
    match e
    case NoChanges => forall c: Component :: c !in targets
    case IncompleteActive => active != map[] && active.Keys !in ACCEPTED
    case UnpinnedActive => exists k | k in active :: active[k].Mutable?
    case LegacyUpgrade =>
      && active != map[] && (exists k: Key | !k.OtherImage? :: k !in active)
      && (exists c: Component :: c !in targets)
    case FirstDeployment => active == map[] && exists c: Component :: c !in targets
    case IncompleteInfrastructure => !FiveInfrastructureImages(candidate)
    case UnpinnedInfrastructure => !FiveInfrastructureImages(candidate)
    case _ => false
  }

  ghost predicate CoordinationHolds(e: PlanError, req: Request, targets: set<Component>, impact: Compatibility) {
    match e
    case DatabaseCoordination => impact.database != NoDatabaseChange && exists c | c in GO_PROCESSES :: c !in targets
    case DatabaseUnknownImpact => impact.database == DatabaseUnknown && exists c: Component :: c !in targets
    case ContractUnverified => impact.contract != Compatible && exists c: Component :: c !in targets
    case BadOperation => req.operation.OtherOperation?
    case RecoveryIncomplete =>
      req.operation.RecoveryOperation? && ((exists c: Component :: c !in targets) || !req.recoveryOf.Reference?)
    case RuntimeIncomplete => req.runtimeHash.None?
    case RecoveryRuntimeHash =>
      req.operation.RecoveryOperation? && req.runtimeHash.Some? && !req.runtimeHash.value.Digest?
    case _ => false
  }

  lemma InputReason(req: Request)
    requires InputRefusal(req).Some?
    ensures InputHolds(InputRefusal(req).value, req)
  {
    if req.candidate.Candidate? && req.candidate.components.Some? {
      AllNames(req.candidate.components.value.Keys);
      if req.candidate.components.value.Keys == ALL_NAMES {
        ItemsAreDeployable(req.candidate);
      }
    }
  }

  lemma ReceiptReason(active: Receipt, candidate: Candidate, targets: set<Component>)
    requires ReceiptRefusal(active, candidate, targets).Some?
    ensures ReceiptHolds(ReceiptRefusal(active, candidate, targets).value, active, candidate, targets)
  {
    EverythingTargeted(targets);
    FamilyIsAccepted(active.Keys);
    FiveImages(candidate);
    if InFamily(active.Keys) {
      LacksOptionalIff(active);
    }
    hide FiveInfrastructureImages, InfrastructureComplete, InfrastructurePinned, InFamily, LacksOptional;
    assert Worker in ALL;
    NoGateway(active);
  }

  lemma NoGateway(active: Receipt)
    ensures LiteLlm !in active ==> LacksOptional(active)
  {
  }

  lemma CoordinationReason(req: Request, targets: set<Component>, impact: Compatibility)
    requires CoordinationRefusal(req, targets, impact).Some?
    ensures CoordinationHolds(CoordinationRefusal(req, targets, impact).value, req, targets, impact)
  {
    GoIsGoProcesses();
    EverythingTargeted(targets);
  }

  /** Whatever reason create_plan gives for a refusal is true of the request. */
  lemma RefusalsAreTrue(req: Request)
    requires Planned(req).Rejected?
    ensures var e := Planned(req).error;
      || InputHolds(e, req)
      || ReceiptHolds(e, Import(req.active), req.candidate, TargetSet(req))
      || CoordinationHolds(e, req, TargetSet(req), Impact(req))
  {
    hide InputHolds, ReceiptHolds, CoordinationHolds, InputRefusal, ReceiptRefusal, CoordinationRefusal, Import,
      DesiredImages, Impact;
    CompositionCheckPasses(req, Impact(req));
    if InputRefusal(req).Some? {
      InputReason(req);
    } else if ReceiptRefusal(Import(req.active), req.candidate, TargetSet(req)).Some? {
      ReceiptReason(Import(req.active), req.candidate, TargetSet(req));
    } else {
      CoordinationReason(req, TargetSet(req), Impact(req));
    }
  }

  // ---------------------------------------------------------------- rollbacks

  /** What is named, and with one Go process all of them that either receipt knows. */
  ghost predicate RollsBack(req: RollbackRequest, c: Component) {
    || Known(c) in req.names
    || (c in GO_PROCESSES && NamesGo(req.names) && (ImageOf(c) in req.active || ImageOf(c) in req.previous))
  }

  lemma NamedElements(names: seq<Name>)
    ensures forall c :: c in Elements(Chosen(names)) <==> Known(c) in names
    ensures Elements(Chosen(names)) * GO != {} <==> NamesGo(names)
  {
    hide Chosen;
    GoIsGoProcesses();
    forall d ensures d in Elements(Chosen(names)) <==> Known(d) in names { ChosenMembers(names, d); }
    if NamesGo(names) {
      var d :| d in GO_PROCESSES && Known(d) in names;
      assert d in Elements(Chosen(names)) * GO;
    }
  }

  lemma CoordinatedIff(active: Receipt, previous: Receipt, c: Component)
    requires InFamily(active.Keys)
    ensures c in Coordinated(active, previous) <==>
      c in GO_PROCESSES && (ImageOf(c) in active || ImageOf(c) in previous)
  {
    GoProcesses(c);
    FamilyKeys(active.Keys);
  }

  lemma RollsBackIff(req: RollbackRequest, c: Component)
    requires InFamily(req.active.Keys)
    ensures c in RollbackSet(req) <==> RollsBack(req, c)
  {
    hide Chosen, Elements, Coordinated, InFamily, NamesGo;
    NamedElements(req.names);
    CoordinatedIff(req.active, req.previous, c);
  }

  lemma RollsBackGo(req: RollbackRequest)
    requires InFamily(req.active.Keys)
    ensures RollbackSet(req) * GO != {} <==> NamesGo(req.names)
  {
    GoIsGoProcesses();
    if NamesGo(req.names) {
      var d :| d in GO_PROCESSES && Known(d) in req.names;
      RollsBackIff(req, d);
      assert d in RollbackSet(req) * GO;
    } else if RollbackSet(req) * GO != {} {
      var d :| d in RollbackSet(req) * GO;
      RollsBackIff(req, d);
    }
  }

  /** A rollback that names a Go process would take away a new worker that is running. */
  ghost predicate LosesWorker(req: RollbackRequest) {
    NamesGo(req.names) &&
    exists w | w in {VideoWorker, TranscriptionWorker} :: ImageOf(w) in req.active && ImageOf(w) !in req.previous
  }

  ghost predicate SameRuntime(req: RollbackRequest) {
    && req.runtimeHash.Some? && req.activeRuntimeHash == req.runtimeHash && req.runtimeHash.value.text != ""
  }

  ghost predicate RollbackAsked(req: RollbackRequest) {
    && req.active.Keys in ACCEPTED && req.previous.Keys in ACCEPTED
    && req.names != [] && (forall name | name in req.names :: name.Known?)
    && (forall i, j | 0 <= i < j < |req.names| :: req.names[i] != req.names[j])
    && (forall k | k in req.previous :: req.previous[k].Pinned?)
  }

  lemma RollbackPassesIff(req: RollbackRequest)
    ensures RollbackRefusal(req).None? <==>
      RollbackAsked(req) && !LosesWorker(req) && SameRuntime(req) && req.sourceSha.Commit?
  {
    hide RollbackSet;
    FamilyIsAccepted(req.active.Keys);
    FamilyIsAccepted(req.previous.Keys);
    if InFamily(req.active.Keys) {
      RollsBackGo(req);
    }
  }

  /** Every input: create_rollback_plan plans exactly when both receipts are accepted and the earlier one is pinned, the
      names are known and distinct, no running worker would be lost, the runtime hashes are the same, the executor is a
      commit, one receipt knows the gateway, and the earlier one knows everything that rolls back. */
  lemma RollsBackPlanIff(req: RollbackRequest)
    ensures PlannedRollback(req).RolledBack? <==>
      && RollbackAsked(req) && !LosesWorker(req) && SameRuntime(req) && req.sourceSha.Commit?
      && (LiteLlm in req.active || LiteLlm in req.previous)
      && (forall c | RollsBack(req, c) :: ImageOf(c) in req.previous)
  {
    hide RollbackRefusal, Missing, RollbackSet, RollsBack, RollbackPlanFor, LosesWorker, SameRuntime;
    RollbackAcceptance(req);
    RollbackPassesIff(req);
    FamilyIsAccepted(req.active.Keys);
    if InFamily(req.active.Keys) {
      forall c ensures c in RollbackSet(req) <==> RollsBack(req, c) { RollsBackIff(req, c); }
    }
  }

  /** The plan's targets, its images key by key, the states it replaces and restores, and the runtime it keeps. */
  ghost predicate RollbackSays(plan: RollbackPlan, req: RollbackRequest) {
    && (forall c: Component :: c in plan.targets <==> RollsBack(req, c))
    && (forall k :: Lookup(plan.desired, k) ==
          Lookup(if k.ImageOf? && RollsBack(req, k.component) then req.previous else req.active, k))
    && plan.expected == StateHash(req.active) && plan.sourceSha == req.sourceSha
    && Some(plan.runtimeHash) == req.runtimeHash == req.activeRuntimeHash
    && (plan.hasVideoWorker <==> ImageOf(VideoWorker) in req.previous)
    && (plan.hasTranscriptionWorker <==> ImageOf(TranscriptionWorker) in req.previous)
    && plan.restored == StateHash(if LiteLlm !in req.previous && LiteLlm in req.active
                                  then req.previous[LiteLlm := req.active[LiteLlm]] else req.previous)
  }

  lemma RollbackTargets(req: RollbackRequest)
    requires InFamily(req.active.Keys)
    ensures forall c: Component :: c in RollbackSet(req) <==> RollsBack(req, c)
    ensures forall c: Component :: c in RollbackList(req) <==> RollsBack(req, c)
  {
    hide RollbackSet, RollsBack, RollbackList, InFamily;
    RollbackListElements(req);
    forall c: Component
      ensures c in RollbackSet(req) <==> RollsBack(req, c)
      ensures c in RollbackList(req) <==> RollsBack(req, c)
    {
      RollsBackIff(req, c);
      assert c in Elements(RollbackList(req)) <==> c in RollbackList(req);
    }
  }

  lemma RestoredByKey(req: RollbackRequest, k: Key)
    requires forall c: Component :: c in RollbackSet(req) <==> RollsBack(req, c)
    requires forall c | RollsBack(req, c) :: ImageOf(c) in req.previous
    ensures Lookup(Restored(req.active, req.previous, RollbackSet(req)), k) ==
      Lookup(if k.ImageOf? && RollsBack(req, k.component) then req.previous else req.active, k)
  {
    hide RollbackSet, RollsBack;
  }

  lemma RollbackPlanSays(req: RollbackRequest)
    requires forall c: Component :: c in RollbackSet(req) <==> RollsBack(req, c)
    requires forall c: Component :: c in RollbackList(req) <==> RollsBack(req, c)
    requires forall c | RollsBack(req, c) :: ImageOf(c) in req.previous
    requires SameRuntime(req)
    ensures RollbackSays(RollbackPlanFor(req), req)
  {
    hide RollbackSet, RollsBack, RollbackList, MergedSources, Restored;
    forall k
      ensures Lookup(RollbackPlanFor(req).desired, k) ==
        Lookup(if k.ImageOf? && RollsBack(req, k.component) then req.previous else req.active, k)
    {
      RestoredByKey(req, k);
    }
  }

  /** The contents of every rollback plan. */
  lemma RollbackContents(req: RollbackRequest)
    requires PlannedRollback(req).RolledBack?
    ensures RollbackSays(PlannedRollback(req).plan, req)
  {
    RollsBackPlanIff(req);
    FamilyIsAccepted(req.active.Keys);
    RollbackTargets(req);
    RollbackPlanSays(req);
    hide RollbackRefusal, Missing, RollbackSays, RollbackPlanFor;
  }

  ghost predicate RecordsAll(sources: Sources) {
    sources.Some? && forall name :: name in sources.value <==> name.Known?
  }

  ghost function OriginAfter(req: RollbackRequest, c: Component): Option<Hex> {
    var sources := if RollsBack(req, c) then req.previousSources else req.activeSources;
    if sources.Some? then Lookup(sources.value, Known(c)) else None
  }

  /** Origins are given exactly when both receipts record one for every component and all merged ones are commits. */
  lemma RollbackSourcesMean(req: RollbackRequest)
    requires PlannedRollback(req).RolledBack?
    ensures var given := PlannedRollback(req).plan.componentSources;
      && (given.Some? <==>
            && RecordsAll(req.activeSources) && RecordsAll(req.previousSources)
            && forall c: Component :: OriginAfter(req, c).Some? && OriginAfter(req, c).value.Commit?)
      && (given.Some? ==> forall c: Component :: Lookup(given.value, c) == OriginAfter(req, c))
  {
    RollsBackPlanIff(req);
    FamilyIsAccepted(req.active.Keys);
    RollbackTargets(req);
    if req.activeSources.Some? { AllNames(req.activeSources.value.Keys); }
    if req.previousSources.Some? { AllNames(req.previousSources.value.Keys); }
    MergedSourcesMean(req);
    hide *;
    assert PlannedRollback(req).plan.componentSources == MergedSources(req,
      RollbackSet(req)) by { PlannedSources(req); }
  }

  lemma PlannedSources(req: RollbackRequest)
    requires PlannedRollback(req).RolledBack?
    ensures PlannedRollback(req).plan.componentSources == MergedSources(req, RollbackSet(req))
  {
    hide RollbackRefusal, Missing, RollbackSet, MergedSources;
  }

  lemma MergedSourcesMean(req: RollbackRequest)
    requires forall c: Component :: c in RollbackSet(req) <==> RollsBack(req, c)
    ensures var given := MergedSources(req, RollbackSet(req));
      && (given.Some? <==>
            && RecordsAll(req.activeSources) && RecordsAll(req.previousSources)
            && forall c: Component :: OriginAfter(req, c).Some? && OriginAfter(req, c).value.Commit?)
      && (given.Some? ==> forall c: Component :: Lookup(given.value, c) == OriginAfter(req, c))
  {
    hide RollbackSet, RollsBack;
    if req.activeSources.Some? { AllNames(req.activeSources.value.Keys); }
    if req.previousSources.Some? { AllNames(req.previousSources.value.Keys); }
    if SourcesComplete(req.activeSources) && SourcesComplete(req.previousSources) {
      var merged := MergedOrigins(req.activeSources.value, req.previousSources.value, RollbackSet(req));
      forall c: Component ensures c in merged && Some(merged[c]) == OriginAfter(req, c) {
        GoProcesses(c);
        assert Known(c) in ALL_NAMES;
      }
      assert forall c: Component :: OriginAfter(req, c) == Some(merged[c]);
    }
  }

  ghost predicate RollbackHoldsOf(e: RollbackError, req: RollbackRequest) {
    match e
    case IncompleteReceipts => req.active.Keys !in ACCEPTED || req.previous.Keys !in ACCEPTED
    case BadRollbackTargets =>
      || req.names == [] || (exists name | name in req.names :: name.Unknown?)
      || (exists i, j | 0 <= i < j < |req.names| :: req.names[i] == req.names[j])
    case UnpinnedPrevious => exists k | k in req.previous :: req.previous[k].Mutable?
    case NoVideoWorker => ImageOf(VideoWorker) in req.active && ImageOf(VideoWorker) !in req.previous
      && NamesGo(req.names)
    case NoTranscriptionWorker =>
      ImageOf(TranscriptionWorker) in req.active && ImageOf(TranscriptionWorker) !in req.previous && NamesGo(req.names)
    case RuntimeMismatch => !SameRuntime(req)
    case BadExecutorSha => !req.sourceSha.Commit?
  }

  /** Whatever reason create_rollback_plan gives for a refusal is true of the request. */
  lemma RollbackRefusalsAreTrue(req: RollbackRequest)
    requires PlannedRollback(req).Refused?
    ensures RollbackHoldsOf(PlannedRollback(req).error, req)
  {
    hide RollbackSet, Missing, RollbackPlanFor;
    FamilyIsAccepted(req.active.Keys);
    FamilyIsAccepted(req.previous.Keys);
    if InFamily(req.active.Keys) {
      RollsBackGo(req);
    }
  }
}
