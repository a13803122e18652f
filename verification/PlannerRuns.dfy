/** Whole runs: any sequence of accepted deploys and rollbacks installed one after the other on one host. */
module PlannerRuns {
  import opened Options
  import opened Catalog
  import opened Planner
  import opened Rollback
  import opened PlannerTheorems

  /** One installed plan, with the inputs it was planned from. */
  datatype Move = Deploy(deploy: Request) | RollBack(back: RollbackRequest)

  function DesiredBy(move: Move): Receipt {
    match move
    case Deploy(req) => Desired(req)
    case RollBack(back) => Restored(back.active, back.previous, RollbackSet(back))
  }

  /** The state the plan expects to replace. */
  function Expected(move: Move): StateHash {
    match move
    case Deploy(req) => StateHash(Import(req.active))
    case RollBack(back) => StateHash(back.active)
  }

  predicate Plans(move: Move) {
    match move
    case Deploy(req) => Accepts(req)
    case RollBack(back) => PlannedRollback(back).RolledBack?
  }

  /** The plans that the two planners produce are the ones installed. */
  lemma PlansAreInstalled(move: Move)
    requires Plans(move)
    ensures move.Deploy? ==>
      && Planner.Planned(move.deploy).Accepted?
      && Planner.Planned(move.deploy).plan.desired == DesiredBy(move)
      && Planner.Planned(move.deploy).plan.expected == Expected(move)
    ensures move.RollBack? ==>
      && PlannedRollback(move.back).plan.desired == DesiredBy(move)
      && PlannedRollback(move.back).plan.expected == Expected(move)
  {
    hide InputRefusal, CompositionRefusal, RollbackRefusal, Missing, MergedSources, Restored, DesiredImages, Import,
      Inferred;
  }

  /** The host installs a plan when its own receipt, imported like the planner's, has the hash the plan expects;
      a rollback may name any receipt the host has had. */
  predicate Installs(receipts: seq<Receipt>, move: Move, next: Receipt)
    requires receipts != []
  {
    && Plans(move)
    && Expected(move) == StateHash(Import(receipts[|receipts| - 1]))
    && (move.RollBack? ==> move.back.previous in receipts)
    && next == DesiredBy(move)
  }

  /** receipts[0] is where the run began and receipts[i + 1] is what moves[i] installed. */
  predicate Run(moves: seq<Move>, receipts: seq<Receipt>) {
    && |receipts| == |moves| + 1
    && forall i | 0 <= i < |moves| :: Installs(receipts[..i + 1], moves[i], receipts[i + 1])
  }

  // ---------------------------------------------------------------- coherence

  /** The Go images of one origin: a candidate, or the receipt the run began with. */
  type GoRelease = map<Component, Image>

  function CandidateRelease(candidate: Candidate): GoRelease {
    map c | c in GO :: Offered(candidate, c)
  }

  function ReceiptRelease(receipt: Receipt): GoRelease {
    map c | c in GO && ImageOf(c) in Import(receipt) :: Import(receipt)[ImageOf(c)]
  }

  /** Every Go image of the receipt is the one this origin has for its component. */
  predicate Agrees(receipt: Receipt, release: GoRelease) {
    forall c | c in GO && ImageOf(c) in receipt :: c in release && release[c] == receipt[ImageOf(c)]
  }

  /** Origins of a run: the initial receipt, then the candidate of each deploy. */
  ghost function Origins(initial: Receipt, moves: seq<Move>): set<GoRelease> {
    {ReceiptRelease(initial)} + set m | m in moves && m.Deploy? :: CandidateRelease(m.deploy.candidate)
  }

  predicate Coherent(receipt: Receipt, origins: set<GoRelease>) {
    exists release :: release in origins && Agrees(receipt, release)
  }

  lemma DeployKeepsGo(active: Receipt, candidate: Candidate, targets: set<Component>, release: GoRelease)
    requires Composable(active, targets) && Agrees(active, release) && targets * GO == {}
    ensures Agrees(DesiredImages(active, candidate, targets), release)
  {
    hide DesiredImages, Offered, Composable;
    forall c | c in GO && ImageOf(c) in DesiredImages(active, candidate, targets)
      ensures Lookup(DesiredImages(active, candidate, targets), ImageOf(c)) == Lookup(active, ImageOf(c))
    {
      ComposedImage(active, candidate, targets, c);
      assert c !in targets * GO;
    }
  }

  lemma DeployTakesGo(active: Receipt, candidate: Candidate, targets: set<Component>)
    requires Composable(active, targets) && GO <= targets
    ensures Agrees(DesiredImages(active, candidate, targets), CandidateRelease(candidate))
  {
    hide DesiredImages, Offered, Composable;
    forall c | c in GO
      ensures Lookup(DesiredImages(active, candidate, targets), ImageOf(c)) == Some(Offered(candidate, c))
    {
      ComposedImage(active, candidate, targets, c);
    }
  }

  /** A deploy leaves the Go images of one origin: the candidate when it touches Go, the previous one when it does
      not. */
  lemma DeployAgrees(active: Receipt, candidate: Candidate, targets: set<Component>, release: GoRelease)
    requires Composable(active, targets) && Agrees(active, release)
    requires targets * GO != {} ==> GO <= targets
    ensures Agrees(DesiredImages(active, candidate, targets),
                   if targets * GO == {} then release else CandidateRelease(candidate))
  {
    hide Agrees, DesiredImages, Composable, CandidateRelease;
    if targets * GO == {} {
      DeployKeepsGo(active, candidate, targets, release);
    } else {
      DeployTakesGo(active, candidate, targets);
    }
  }

  /** What a planned rollback does to the Go processes: all of those in place move, or none does. */
  predicate GoMovesTogether(active: Receipt, previous: Receipt, targets: set<Component>) {
    && (forall c | c in targets :: ImageOf(c) in previous)
    && (targets * GO != {} ==> forall c | c in GO && ImageOf(c) in active :: c in targets)
  }

  lemma RollbackMovesTogether(req: RollbackRequest)
    requires PlannedRollback(req).RolledBack?
    ensures GoMovesTogether(req.active, req.previous, RollbackSet(req))
  {
    RollbackAcceptance(req);
    RollbackGoClosed(req);
  }

  lemma RollbackGoClosed(req: RollbackRequest)
    ensures RollbackSet(req) * GO != {} ==> forall c | c in GO && ImageOf(c) in req.active :: c in RollbackSet(req)
  {
    if Elements(Chosen(req.names)) * GO == {} {
      assert RollbackSet(req) == Elements(Chosen(req.names));
    }
  }

  /** A rollback that touches Go takes every Go image it leaves in place from the earlier receipt. */
  lemma RollbackAgrees(active: Receipt, previous: Receipt, targets: set<Component>, current: GoRelease,
      earlier: GoRelease)
    requires GoMovesTogether(active, previous, targets)
    requires Agrees(active, current) && Agrees(previous, earlier)
    ensures Agrees(Restored(active, previous, targets), if targets * GO == {} then current else earlier)
  {
    var next := Restored(active, previous, targets);
    forall c | c in GO && ImageOf(c) in next
      ensures targets * GO == {} ==> ImageOf(c) in active && next[ImageOf(c)] == active[ImageOf(c)]
      ensures targets * GO != {} ==> ImageOf(c) in previous && next[ImageOf(c)] == previous[ImageOf(c)]
    {
      if targets * GO == {} {
        assert c !in targets * GO;
      }
    }
  }

  lemma GoClosedTargets(req: Request)
    ensures TargetSet(req) * GO != {} ==> GO <= TargetSet(req)
  {
    if Requested(req, Impact(req)) * GO == {} {
      assert TargetSet(req) == Requested(req, Impact(req));
    }
  }

  lemma MoveFamily(move: Move)
    requires Plans(move)
    ensures InFamily(DesiredBy(move).Keys)
    ensures move.Deploy? ==> DesiredBy(move).Keys == COMPOSITION
  {
    match move
    case Deploy(req) =>
      DeployClosure(req);
      CompositionInFamily();
    case RollBack(back) =>
      FamilyKeys(back.active.Keys);
      FamilyKeys(back.previous.Keys);
      FamilyKeys(DesiredBy(move).Keys);
  }

  /** One installation takes a coherent history to a coherent receipt. */
  lemma InstallCoherent(receipts: seq<Receipt>, move: Move, next: Receipt, origins: set<GoRelease>)
    requires receipts != [] && Installs(receipts, move, next)
    requires forall r | r in receipts :: Coherent(Import(r), origins)
    requires move.Deploy? ==> CandidateRelease(move.deploy.candidate) in origins
    ensures Coherent(Import(next), origins)
  {
    var last := receipts[|receipts| - 1];
    assert last in receipts;
    MoveFamily(move);
    ImportAccepted(next);
    var current :| current in origins && Agrees(Import(last), current);
    match move
    case Deploy(req) =>
      AcceptedComposable(req);
      GoClosedTargets(req);
      DeployAgrees(Import(last), req.candidate, TargetSet(req), current);
    case RollBack(back) =>
      ImportAccepted(back.previous);
      var earlier :| earlier in origins && Agrees(Import(back.previous), earlier);
      RollbackMovesTogether(back);
      RollbackAgrees(back.active, back.previous, RollbackSet(back), current, earlier);
  }

  /** In every run, from any initial receipt, all the Go images of every receipt come from one single candidate or
      from the initial receipt, never a mix. */
  lemma {:induction false} GoCoherence(moves: seq<Move>, receipts: seq<Receipt>)
    requires Run(moves, receipts)
    ensures forall r | r in receipts :: Coherent(Import(r), Origins(receipts[0], moves))
    ensures forall r | r in receipts :: Coherent(r, Origins(receipts[0], moves))
    decreases |moves|
  {
    hide Plans, DesiredBy, Expected, Import, Agrees, CandidateRelease, ReceiptRelease;
    var origins := Origins(receipts[0], moves);
    if moves == [] {
      InitialAgrees(receipts[0]);
      assert receipts == [receipts[0]];
    } else {
      var n := |moves| - 1;
      RunPrefix(moves, receipts);
      GoCoherence(moves[..n], receipts[..n + 1]);
      assert receipts == receipts[..n + 1] + [receipts[n + 1]];
      assert moves[n] in moves;
      assert forall m | m in moves[..n] :: m in moves;
      assert Origins(receipts[0], moves[..n]) <= origins;
      InstallCoherent(receipts[..n + 1], moves[n], receipts[n + 1], origins);
    }
    forall r | r in receipts ensures Coherent(r, origins) {
      ImportCoherent(r, origins);
    }
  }

  lemma InitialAgrees(initial: Receipt)
    ensures Agrees(Import(initial), ReceiptRelease(initial))
  {
  }

  lemma RunPrefix(moves: seq<Move>, receipts: seq<Receipt>)
    requires Run(moves, receipts) && moves != []
    ensures Run(moves[..|moves| - 1], receipts[..|moves|])
  {
    hide Installs;
    forall i | 0 <= i < |moves| - 1
      ensures Installs(receipts[..|moves|][..i + 1], moves[i], receipts[i + 1])
    {
      assert receipts[..|moves|][..i + 1] == receipts[..i + 1];
    }
  }

  lemma ImportCoherent(receipt: Receipt, origins: set<GoRelease>)
    requires Coherent(Import(receipt), origins)
    ensures Coherent(receipt, origins)
  {
    var release :| release in origins && Agrees(Import(receipt), release);
    forall c | c in GO && ImageOf(c) in receipt ensures c in release && release[c] == receipt[ImageOf(c)] {
      ImportKeeps(receipt, ImageOf(c));
    }
  }

  // --------------------------------------------------------------- the receipts

  /** Every installed receipt has an accepted key set, and no key of the imported current receipt is ever lost. */
  lemma InstallKeepsKeys(receipts: seq<Receipt>, move: Move, next: Receipt)
    requires receipts != [] && Installs(receipts, move, next)
    ensures InFamily(next.Keys) && Import(receipts[|receipts| - 1]).Keys <= next.Keys
    ensures move.Deploy? ==> next.Keys == COMPOSITION
  {
    MoveFamily(move);
    if move.Deploy? {
      AcceptedComposable(move.deploy);
      FamilyKeys(Import(move.deploy.active).Keys);
      forall k | k in Import(move.deploy.active) ensures k in next { CompositionMembers(k); }
    }
  }

  lemma InstallPinned(receipts: seq<Receipt>, move: Move, next: Receipt)
    requires receipts != [] && Installs(receipts, move, next) && AllPinned(Import(receipts[|receipts| - 1]))
    ensures AllPinned(next)
  {
    match move
    case Deploy(req) => DeployClosure(req);
    case RollBack(back) => RestoredPinned(back);
  }

  lemma RestoredPinned(back: RollbackRequest)
    requires PlannedRollback(back).RolledBack? && AllPinned(back.active)
    ensures AllPinned(Restored(back.active, back.previous, RollbackSet(back)))
  {
    hide Missing, MergedSources;
    RollbackAcceptance(back);
  }

  lemma PinnedImport(receipt: Receipt)
    requires AllPinned(receipt)
    ensures AllPinned(Import(receipt))
  {
    if receipt.Keys == LEGACY {
      assert ImageOf(Api) in receipt;
    }
  }

  lemma InstallKeeps(receipts: seq<Receipt>, move: Move, next: Receipt)
    requires receipts != [] && Installs(receipts, move, next) && AllPinned(receipts[|receipts| - 1])
    ensures AllPinned(next) && InFamily(next.Keys) && receipts[|receipts| - 1].Keys <= next.Keys
  {
    hide Plans, DesiredBy, Expected, Import, InFamily;
    var last := receipts[|receipts| - 1];
    PinnedImport(last);
    InstallKeepsKeys(receipts, move, next);
    InstallPinned(receipts, move, next);
    forall k | k in last ensures k in next { ImportKeeps(last, k); }
  }

  lemma RunStep(moves: seq<Move>, receipts: seq<Receipt>, i: nat)
    requires Run(moves, receipts) && i < |moves|
    ensures Installs(receipts[..i + 1], moves[i], receipts[i + 1])
  {
  }

  lemma {:induction false} PinnedFrom(moves: seq<Move>, receipts: seq<Receipt>, i: nat)
    requires Run(moves, receipts) && AllPinned(receipts[0]) && i < |receipts|
    ensures AllPinned(receipts[i])
    ensures i > 0 ==> InFamily(receipts[i].Keys) && receipts[i - 1].Keys <= receipts[i].Keys
  {
    hide Plans, DesiredBy, Expected, Import, InFamily, Installs;
    if i > 0 {
      PinnedFrom(moves, receipts, i - 1);
      RunStep(moves, receipts, i - 1);
      InstallKeeps(receipts[..i], moves[i - 1], receipts[i]);
      assert receipts[..i][i - 1] == receipts[i - 1];
    }
  }

  lemma DeployNeedsPinned(req: Request)
    requires Accepts(req)
    ensures AllPinned(Import(req.active))
  {
    hide ReceiptRefusal, CoordinationRefusal, Refusal, Inferred, Import, TargetSet, AllPinned, Composable,
      InfrastructureComplete, InfrastructurePinned, Accepts;
    UnreachableRefusals(req);
    ReceiptChecksPassIff(Import(req.active), req.candidate, TargetSet(req));
  }

  lemma RollbackNeedsPinned(back: RollbackRequest)
    requires PlannedRollback(back).RolledBack?
    ensures AllPinned(back.previous)
  {
    hide Missing, RollbackPlanFor, AllPinned, InFamily, Loses, RuntimeMatches;
  }

  /** The first plan is only made from a pinned receipt: a deploy checks the active one, a rollback the earlier one,
      which here is the same. */
  lemma FirstMovePinned(receipts: seq<Receipt>, move: Move, next: Receipt)
    requires |receipts| == 1 && Installs(receipts, move, next)
    ensures AllPinned(receipts[0])
  {
    hide Accepts, PlannedRollback, DesiredBy, Import, AllPinned;
    match move
    case Deploy(req) =>
      DeployNeedsPinned(req);
      PinnedBeforeImport(receipts[0]);
    case RollBack(back) =>
      RollbackNeedsPinned(back);
  }

  /** Over every run with a move, whatever it began with: all receipts are pinned, the first one included, every
      installed one has an accepted key set, and keys only grow. */
  lemma ReceiptFamily(moves: seq<Move>, receipts: seq<Receipt>, i: nat)
    requires Run(moves, receipts) && moves != [] && i < |receipts|
    ensures AllPinned(receipts[i])
    ensures i > 0 ==> InFamily(receipts[i].Keys) && receipts[i - 1].Keys <= receipts[i].Keys
  {
    hide Plans, DesiredBy, Expected, Import, InFamily, Installs;
    RunStep(moves, receipts, 0);
    FirstMovePinned(receipts[..1], moves[0], receipts[1]);
    PinnedFrom(moves, receipts, i);
  }
}
