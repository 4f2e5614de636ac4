/** The desktop app's route guards: which paths are connection routes, the
    redirect of signed-out users, the one-time attempt to start the local
    node, the default-agent pick and the onboarding guard's navigation. */
module Routes {
  import opened Wrappers
  import opened Text

  const SkipOnboardingRoutes: seq<string> := ["/quick-connection", "/restore", "/connect-qr"]
  const TermsPath := "/terms-conditions"

  /** `path` is `route` or lies below it. */
  predicate IsAtOrBelow(path: string, route: string) {
    path == route || StartsWith(path, route + "/")
  }

  /** `routes.some(...)`, from the front of the list. */
  function MatchesSomeRoute(path: string, routes: seq<string>): (b: bool)
    ensures b <==> exists i :: 0 <= i < |routes| && IsAtOrBelow(path, routes[i])
  {
    if routes == [] then false
    else if IsAtOrBelow(path, routes[0]) then true
    else
      var b := MatchesSomeRoute(path, routes[1..]);
      assert forall i :: 1 <= i < |routes| ==> routes[i] == routes[1..][i - 1];
      b
  }

  /** `isConnectionRoute`. */
  function IsConnectionRoute(path: string): (b: bool)
    ensures b <==> exists i :: 0 <= i < |SkipOnboardingRoutes| && IsAtOrBelow(path, SkipOnboardingRoutes[i])
  {
    MatchesSomeRoute(path, SkipOnboardingRoutes)
  }

  /** Every page below a connection route is one too. */
  lemma ConnectionRouteExtends(path: string, rest: string)
    requires IsConnectionRoute(path)
    ensures IsConnectionRoute(path + "/" + rest)
  {
    var i :| 0 <= i < |SkipOnboardingRoutes| && IsAtOrBelow(path, SkipOnboardingRoutes[i]);
    var route := SkipOnboardingRoutes[i];
    assert (path + "/" + rest)[..|route| + 1] == (route + "/")[..|route| + 1] by {
      if path == route {
        assert (path + "/" + rest)[..|route| + 1] == path + "/";
      } else {
        assert (path + "/" + rest)[..|route| + 1] == path[..|route| + 1];
      }
    }
    assert IsAtOrBelow(path + "/" + rest, route);
  }

  /** What `ProtectedRoute` renders. */
  datatype Guarded = Render | Redirect(to: string)

  /** Signed-out users are sent to the terms page, except on connection
      routes. */
  function ProtectedRouteOutcome(hasAuth: bool, path: string): (r: Guarded)
    ensures r.Redirect? <==> !hasAuth && !IsConnectionRoute(path)
    ensures r.Redirect? ==> r.to == TermsPath
  {
    if !hasAuth && !IsConnectionRoute(path) then Redirect(TermsPath) else Render
  }

  /** A signed-in user is never redirected, whatever the path. */
  lemma SignedInRendersEverywhere(path: string)
    ensures ProtectedRouteOutcome(true, path) == Render
  {
  }

  /** What the node-start attempt asks the node manager for. */
  datatype NodeOptions = NodeOptions(settings: map<string, string>)

  datatype NodeCommand = SetOptions(options: NodeOptions) | Spawn

  /** The commands of one start attempt: the stored options first, when
      there are any, then the spawn. */
  function StartCommands(options: Option<NodeOptions>): (r: seq<NodeCommand>)
    ensures |r| >= 1 && r[|r| - 1] == Spawn
    ensures options.Some? <==> |r| == 2
    ensures options.Some? ==> r[0] == SetOptions(options.value)
  {
    match options
    case None => [Spawn]
    case Some(o) => [SetOptions(o), Spawn]
  }

  /** The number of spawns among the commands. */
  function Spawns(commands: seq<NodeCommand>): (n: nat)
    ensures n <= |commands|
  {
    if commands == [] then 0 else (if commands[0] == Spawn then 1 else 0) + Spawns(commands[1..])
  }

  lemma {:induction false} SpawnsAppend(a: seq<NodeCommand>, b: seq<NodeCommand>)
    ensures Spawns(a + b) == Spawns(a) + Spawns(b)
  {
    if a != [] {
      assert (a + b)[1..] == a[1..] + b;
      SpawnsAppend(a[1..], b);
    } else {
      assert a + b == b;
    }
  }

  lemma StartSpawnsOnce(options: Option<NodeOptions>)
    ensures Spawns(StartCommands(options)) == 1
  {
  }

  /** The node auto-start guard of one mounted `ProtectedRoute`: the
      tried flag and the commands sent to the node manager. */
  class NodeAutoStart {
    var tried: bool
    var commands: seq<NodeCommand>

    /** The node was spawned once if the start was tried, never
        otherwise. */
    ghost predicate Valid()
      reads this
    {
      Spawns(commands) == (if tried then 1 else 0)
    }

    constructor ()
      ensures Valid() && !tried && commands == []
    {
      tried := false;
      commands := [];
    }

    /** One run of the effect. `isRunning` is the running query's data,
        absent until it first answers. */
    method OnEffect(isInUse: bool, isRunning: Option<bool>, options: Option<NodeOptions>)
      requires Valid()
      modifies this
      ensures Valid()
      ensures old(!tried) && isInUse && isRunning != Some(true) ==>
                tried && commands == old(commands) + StartCommands(options)
      ensures !(old(!tried) && isInUse && isRunning != Some(true)) ==>
                tried == old(tried) && commands == old(commands)
    {
      if !tried && isInUse && isRunning != Some(true) {
        tried := true;
        SpawnsAppend(commands, StartCommands(options));
        StartSpawnsOnce(options);
        commands := commands + StartCommands(options);
      }
    }
  }

  /** A model provider as the provider list reports it. */
  datatype Provider = Provider(id: string, model: string)

  /** Case-insensitive model equality. */
  predicate SameModel(a: string, b: string) {
    Lower(a) == Lower(b)
  }

  /** `find` by model: the first provider whose model matches; never one
      when there is no default model. */
  function FindByModel(providers: seq<Provider>, model: Option<string>): (r: Option<nat>)
    ensures r.Some? ==> model.Some? && r.value < |providers| && SameModel(providers[r.value].model, model.value)
    ensures r.Some? ==> forall j :: 0 <= j < r.value ==> !SameModel(providers[j].model, model.value)
    ensures r.None? && model.Some? ==> forall j :: 0 <= j < |providers| ==> !SameModel(providers[j].model, model.value)
  {
    if model.None? || providers == [] then None
    else if SameModel(providers[0].model, model.value) then Some(0)
    else
      match FindByModel(providers[1..], model)
      case None => None
      case Some(k) => Some(k + 1)
  }

  /** `useDefaultAgentByDefault`: the id it sets, if any. Only a loaded,
      non-empty list and a missing default lead to a choice: the provider
      for the node's default model, else the first provider. */
  function DefaultAgentChoice(isSuccess: bool, providers: Option<seq<Provider>>, defaultAgentId: string,
                              defaultModel: Option<string>): (r: Option<string>)
    ensures r.Some? <==> isSuccess && providers.Some? && |providers.value| > 0 && defaultAgentId == ""
    ensures r.Some? ==> exists i :: 0 <= i < |providers.value| && providers.value[i].id == r.value
    ensures r.Some? && FindByModel(providers.value, defaultModel).Some? ==>
              r.value == providers.value[FindByModel(providers.value, defaultModel).value].id
    ensures r.Some? && FindByModel(providers.value, defaultModel).None? ==> r.value == providers.value[0].id
  {
    if !isSuccess || providers.None? || |providers.value| == 0 || defaultAgentId != "" then None
    else
      match FindByModel(providers.value, defaultModel)
      case Some(i) => Some(providers.value[i].id)
      case None => Some(providers.value[0].id)
  }

  /** Once a (non-empty) default is stored, the effect leaves it alone. */
  lemma DefaultChosenOnce(isSuccess: bool, providers: Option<seq<Provider>>, defaultModel: Option<string>)
    requires DefaultAgentChoice(isSuccess, providers, "", defaultModel).Some?
    requires DefaultAgentChoice(isSuccess, providers, "", defaultModel).value != ""
    ensures DefaultAgentChoice(isSuccess, providers,
                               DefaultAgentChoice(isSuccess, providers, "", defaultModel).value, defaultModel).None?
  {
  }

  /** An onboarding step and the page it lives on. */
  datatype Step = Step(id: string, path: string)

  /** The onboarding guard's input: the settings store's answers for the
      current path (`getStepByPath`, `isStepCompleted`, `getNextStep`,
      `isOnboardingComplete`), and the destination after onboarding. */
  datatype OnboardingView = OnboardingView(
    currentStep: Option<Step>, completedSteps: set<string>, nextStep: Option<Step>,
    onboardingComplete: bool, completionDestination: string)

  /** The step rule: go to the next step when the current page's step is
      done, when on the root or the destination, or when elsewhere than the
      next step's page. */
  predicate LeavesForNextStep(path: string, v: OnboardingView)
    requires v.nextStep.Some?
  {
    || (v.currentStep.Some? && v.currentStep.value.id in v.completedSteps)
    || path == v.completionDestination || path == "/"
    || path != v.nextStep.value.path
  }

  /** The onboarding guard's effect: where it navigates, if anywhere. */
  function OnboardingNavigation(path: string, hasAuth: bool, v: OnboardingView): (r: Option<string>)
    ensures path in SkipOnboardingRoutes ==> r.None?
    ensures path !in SkipOnboardingRoutes && !hasAuth && path != TermsPath ==> r == Some(TermsPath)
    ensures path !in SkipOnboardingRoutes && hasAuth && v.onboardingComplete ==> r == Some(v.completionDestination)
    ensures path !in SkipOnboardingRoutes && (hasAuth || path == TermsPath) && !(hasAuth && v.onboardingComplete) ==>
      r == (if v.nextStep.Some? && LeavesForNextStep(path, v) then Some(v.nextStep.value.path) else None)
  {
    if path in SkipOnboardingRoutes then None
    else if !hasAuth && path != TermsPath then Some(TermsPath)
    else if v.onboardingComplete && hasAuth then Some(v.completionDestination)
    else if v.nextStep.None? then None
    else if LeavesForNextStep(path, v) then Some(v.nextStep.value.path)
    else None
  }

  /** The guard only ever sends users to the terms page, the destination
      or the next step's page. */
  lemma OnboardingTargets(path: string, hasAuth: bool, v: OnboardingView)
    ensures var r := OnboardingNavigation(path, hasAuth, v);
      r.Some? ==> r.value == TermsPath || r.value == v.completionDestination
                  || (v.nextStep.Some? && r.value == v.nextStep.value.path)
  {
  }

  /** No redirect loop: arriving on the next step's own page (not the root
      or the destination), with that step not yet done, the guard stays. */
  lemma OnboardingSettlesOnNextStep(hasAuth: bool, v: OnboardingView)
    requires v.nextStep.Some? && v.currentStep == v.nextStep && v.nextStep.value.id !in v.completedSteps
    requires hasAuth && !v.onboardingComplete
    requires v.nextStep.value.path != "/" && v.nextStep.value.path != v.completionDestination
    ensures OnboardingNavigation(v.nextStep.value.path, hasAuth, v).None?
  {
  }
}
