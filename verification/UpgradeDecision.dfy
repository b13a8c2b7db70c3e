/** Classification of a cluster and the action it calls for. */
module UpgradeDecision {
  import opened Strings
  import opened Ordering
  import opened Revisions

  datatype State = State(provisioning: string, installed: seq<string>, available: seq<string>, inProgress: bool)

  datatype Scenario =
    | NotReady | FreshInstall | AlreadyAtTarget | MidUpgrade | TooManyRevisions
    | StaleCanary | Downgrade | UpgradeAvailable | UpgradeUnavailable

  datatype Action = Install | Upgrade | Skip | Resume | CleanupAndUpgrade | Reconcile

  predicate Ready(state: State) { state.provisioning == "Succeeded" }

  predicate OnlyTarget(installed: seq<string>, target: string) {
    target in installed && !Others(installed, target)
  }

  /** The newest installed revision is above the target. */
  predicate AboveTarget(installed: seq<string>, target: string) {
    installed != [] && RevisionOrder(Best(installed, true), target) > 0
  }

  /** When the revisions compare consistently, this is so exactly when any installed revision is above the target. */
  lemma AboveTargetIs(installed: seq<string>, target: string)
    requires Comparable(installed, target)
    ensures AboveTarget(installed, target) <==> exists r :: r in installed && RevisionOrder(r, target) > 0
  {
    hide RevisionOrder, Fits;
    if |installed| > 1 {
      var k := BestIsFirst(installed, true);
      var best := installed[k];
      forall r | r in installed && RevisionOrder(r, target) > 0 ensures RevisionOrder(best, target) > 0 {
        assert NoBetter(r, best, true);
        OrderIsTotalPreorder(r, best, target);
      }
    }
  }

  /** What each scenario says about the cluster. */
  ghost predicate Describes(s: Scenario, state: State, target: string) {
    var installed := state.installed;
    match s
    case NotReady => !Ready(state) || (state.inProgress && target !in installed)
    case FreshInstall => Ready(state) && !state.inProgress && installed == []
    case AlreadyAtTarget => Ready(state) && !state.inProgress && OnlyTarget(installed, target)
    case MidUpgrade =>
      Ready(state) && target in installed && (state.inProgress || Others(installed, target))
    case TooManyRevisions => Ready(state) && !state.inProgress && target !in installed && |installed| > 2
    case Downgrade => Settled(state, target) && AboveTarget(installed, target)
    case UpgradeUnavailable => Settled(state, target) && !AboveTarget(installed, target) && target !in state.available
    case UpgradeAvailable =>
      Settled(state, target) && !AboveTarget(installed, target) && target in state.available && |installed| == 1
    case StaleCanary =>
      Settled(state, target) && !AboveTarget(installed, target) && target in state.available && |installed| == 2
  }

  /** One or two revisions, none of them the target, and no change under way. */
  predicate Settled(state: State, target: string) {
    Ready(state) && !state.inProgress && target !in state.installed && 1 <= |state.installed| <= 2
  }

  /** The scenarios exclude one another. */
  lemma ScenariosExclude(state: State, target: string, s: Scenario, s': Scenario)
    requires Describes(s, state, target) && Describes(s', state, target)
    ensures s == s'
  {
    hide AboveTarget;
    if state.installed != [] {
      assert state.installed[0] in state.installed;
    }
  }

  lemma OthersGrow(seen: seq<string>, next: string, target: string)
    ensures !Others([], target)
    ensures Others(seen + [next], target) <==> Others(seen, target) || next != target
  {
    if r :| r in seen && r != target {
      assert r in seen + [next];
    }
    assert next in seen + [next];
  }

  /** The revisions compare consistently: their numbers fit, or there is just one. */
  ghost predicate Comparable(installed: seq<string>, target: string) {
    |installed| <= 1 || (AllFit(installed) && Fits(target))
  }

  method Classify(state: State, target: string) returns (s: Scenario)
    ensures Describes(s, state, target)
  {
    hide RevisionOrder, Fits, Others, Best;
    if state.provisioning != "Succeeded" {
      return NotReady;
    }
    if state.inProgress {
      if target in state.installed {
        return MidUpgrade;
      }
      return NotReady;
    }
    if |state.installed| == 0 {
      return FreshInstall;
    }
    var hasTarget, hasOther := false, false;
    OthersGrow([], target, target);
    assert state.installed[..0] == [];
    for i := 0 to |state.installed|
      invariant hasTarget <==> target in state.installed[..i]
      invariant hasOther <==> Others(state.installed[..i], target)
    {
      OthersGrow(state.installed[..i], state.installed[i], target);
      if state.installed[i] == target {
        hasTarget := true;
      } else {
        hasOther := true;
      }
      assert state.installed[..i + 1] == state.installed[..i] + [state.installed[i]];
    }
    assert state.installed[..|state.installed|] == state.installed;
    if hasTarget && !hasOther {
      return AlreadyAtTarget;
    }
    if hasTarget && hasOther {
      return MidUpgrade;
    }
    if |state.installed| > 2 {
      return TooManyRevisions;
    }
    var highest := Extreme(state.installed, true);
    var order := CompareRevisions(highest, target);
    if order > 0 {
      return Downgrade;
    }
    if target !in state.available {
      return UpgradeUnavailable;
    }
    if |state.installed| == 1 {
      return UpgradeAvailable;
    }
    s := StaleCanary;
  }

  method Decide(state: State, target: string) returns (action: Action)
    ensures exists s :: Describes(s, state, target) && action == Chosen(s)
    ensures action == Install <==> state.provisioning == "Succeeded" && !state.inProgress && state.installed == []
    ensures action == Resume <==>
      && state.provisioning == "Succeeded" && target in state.installed
      && (state.inProgress || exists r :: r in state.installed && r != target)
    ensures action == Reconcile <==>
      && state.provisioning == "Succeeded" && !state.inProgress && state.installed != []
      && ((forall r :: r in state.installed ==> r == target)
          || (target !in state.installed && |state.installed| <= 2 && AboveTarget(state.installed, target)))
    ensures action == Upgrade <==>
      && state.provisioning == "Succeeded" && !state.inProgress && target !in state.installed && |state.installed| == 1
      && !AboveTarget(state.installed, target) && target in state.available
    ensures action == CleanupAndUpgrade <==>
      && state.provisioning == "Succeeded" && !state.inProgress && target !in state.installed && |state.installed| == 2
      && !AboveTarget(state.installed, target) && target in state.available
    ensures action == Skip <==>
      || state.provisioning != "Succeeded"
      || (target !in state.installed
          && (state.inProgress || |state.installed| > 2
              || (state.installed != [] && !AboveTarget(state.installed, target) && target !in state.available)))
  {
    hide AboveTarget;
    if state.installed != [] {
      assert state.installed[0] in state.installed;
    }
    var s := Classify(state, target);
    ActionsAreSound(state, target, s);
    match s {
      case NotReady => action := Skip;
      case FreshInstall => action := Install;
      case AlreadyAtTarget => action := Reconcile;
      case MidUpgrade => action := Resume;
      case TooManyRevisions => action := Skip;
      case StaleCanary => action := CleanupAndUpgrade;
      case Downgrade => action := Reconcile;
      case UpgradeAvailable => action := Upgrade;
      case UpgradeUnavailable => action := Skip;
    }
  }

  function Chosen(s: Scenario): Action {
    match s
    case NotReady => Skip
    case FreshInstall => Install
    case AlreadyAtTarget => Reconcile
    case MidUpgrade => Resume
    case TooManyRevisions => Skip
    case StaleCanary => CleanupAndUpgrade
    case Downgrade => Reconcile
    case UpgradeAvailable => Upgrade
    case UpgradeUnavailable => Skip
  }

  /** The revision to reconcile: the newest installed one when it is above the target. */
  method ReconcileTarget(installed: seq<string>, target: string) returns (r: string)
    requires installed != []
    ensures r == target || r in installed
    ensures "" !in installed ==> r == if AboveTarget(installed, target) then Best(installed, true) else target
    ensures "" !in installed ==> (AboveTarget(installed, target) <==> r != target)
  {
    hide RevisionOrder, Fits, Best;
    var highest := Extreme(installed, true);
    var order := CompareRevisions(highest, target);
    SelfIsEqual(target);
    r := if highest != "" && order > 0 then highest else target;
  }

  lemma {:induction false} EqualParts(a: seq<string>, i: nat)
    ensures CompareFrom(a, a, i) == 0
    decreases |a| - i
  {
    if i < |a| {
      CompareLaws(a[i], a[i]);
      EqualParts(a, i + 1);
    }
  }

  lemma SelfIsEqual(r: string)
    ensures RevisionOrder(r, r) == 0
  {
    EqualParts(Split(r, '-'), 0);
  }

  /** Every action that looks for a highest revision meets a non-empty list, and reconciliation always finds its target installed. */
  lemma ActionsAreSound(state: State, target: string, s: Scenario)
    requires Describes(s, state, target)
    ensures Chosen(s) in {Reconcile, Upgrade, CleanupAndUpgrade, Resume} ==> state.installed != []
    ensures Chosen(s) == Install ==> state.installed == []
    ensures Chosen(s) == Resume ==> target in state.installed
    ensures Chosen(s) == Reconcile ==> target in state.installed || AboveTarget(state.installed, target)
    ensures Chosen(s) == Upgrade ==>
      |state.installed| == 1 && state.installed[0] != target && RevisionOrder(state.installed[0], target) <= 0
    ensures Chosen(s) == CleanupAndUpgrade ==>
      |state.installed| == 2 && target !in state.installed && !AboveTarget(state.installed, target)
  {
    hide RevisionOrder;
    if state.installed != [] {
      assert state.installed[0] in state.installed;
    }
  }
}
