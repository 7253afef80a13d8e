/**
 * `Cleanup` itself, step by step as the command runs it: resolve the
 * options, print the warning, ask for confirmation, then the release, Tiller
 * and configuration phases, each returning at its first error. Helper calls
 * and log lines are appended to `trace`; what each helper returns is read
 * from the environment.
 */
module Cleanup {
  import opened Options
  import opened Warning
  import opened Collaborators
  import opened Sequencer

  /** The version of each release record, in the order the records were found. */
  method CollectVersions(releases: seq<V2Release>) returns (versions: seq<int32>)
    ensures |versions| == |releases|
    ensures forall i | 0 <= i < |releases| :: versions[i] == releases[i].version
  {
    versions := [];
    var n := |releases|;
    for i := 0 to n
      invariant |versions| == i
      invariant forall k | 0 <= k < i :: versions[k] == releases[k].version
    {
      var release := releases[i];
      versions := versions + [release.version];
    }
  }

  /** The records `GetReleaseVersions` found; none when it failed. */
  function FoundReleases(lookup: LookupResult): seq<V2Release> {
    if lookup.Found? then lookup.releases else []
  }

  /** The step a phase took, from the error it ended with and the events it logged. */
  function StepOf(err: Status, events: seq<Event>): Step {
    if err.Error? then Return(events, err) else Continue(events)
  }

  /**
   * The release phase of the command. As written, the error of deleting a
   * named release's versions lands in a variable local to that branch (it
   * shadows `err`), so the check after the branch never sees it.
   */
  method DeleteReleases(o: CleanupOptions, kubeConfig: KubeConfig, env: Environment)
    returns (err: Status, events: seq<Event>)
    ensures StepOf(err, events) == ReleasePhase(o, kubeConfig, env, AsWritten)
  {
    err, events := Nil, [];
    if o.releaseCleanup {
      events := events + [ReleaseWillBeDeleted(o.releaseName)];
      var retrieveOptions := RetrieveOptions(
        o.releaseName, o.tillerNamespace, o.tillerLabel, o.tillerOutCluster, o.storageType);
      if o.releaseName == "" {
        events := events + [DeleteAllReleaseVersions(retrieveOptions, kubeConfig, o.dryRun)];
        err := env.deleteAll;
      } else {
        events := events + [GetReleaseVersions(retrieveOptions, kubeConfig)];
        var v2Releases, err := FoundReleases(env.lookup), ResultOf(Lookup, env);
        if err.Error? {
          return err, events;
        }
        var versions := CollectVersions(v2Releases);
        assert versions == VersionsOf(env.lookup.releases);
        var deleteOptions := DeleteOptions(o.dryRun, versions);
        events := events + [DeleteReleaseVersions(retrieveOptions, deleteOptions, kubeConfig)];
        err := env.deleteVersions;
      }
      if err.Error? {
        return err, events;
      }
      if !o.dryRun {
        events := events + [ReleaseDeleted(o.releaseName)];
      }
    }
  }

  /**
   * The release phase with the lookup's results assigned to the function's
   * own `err`, so that a failed deletion of a named release's versions is
   * returned like every other helper failure.
   */
  method DeleteReleasesCorrected(o: CleanupOptions, kubeConfig: KubeConfig, env: Environment)
    returns (err: Status, events: seq<Event>)
    ensures StepOf(err, events) == ReleasePhase(o, kubeConfig, env, Corrected)
  {
    err, events := Nil, [];
    if o.releaseCleanup {
      events := events + [ReleaseWillBeDeleted(o.releaseName)];
      var retrieveOptions := RetrieveOptions(
        o.releaseName, o.tillerNamespace, o.tillerLabel, o.tillerOutCluster, o.storageType);
      if o.releaseName == "" {
        events := events + [DeleteAllReleaseVersions(retrieveOptions, kubeConfig, o.dryRun)];
        err := env.deleteAll;
      } else {
        events := events + [GetReleaseVersions(retrieveOptions, kubeConfig)];
        var v2Releases: seq<V2Release>;
        v2Releases, err := FoundReleases(env.lookup), ResultOf(Lookup, env);
        if err.Error? {
          return err, events;
        }
        var versions := CollectVersions(v2Releases);
        assert versions == VersionsOf(env.lookup.releases);
        var deleteOptions := DeleteOptions(o.dryRun, versions);
        events := events + [DeleteReleaseVersions(retrieveOptions, deleteOptions, kubeConfig)];
        err := env.deleteVersions;
      }
      if err.Error? {
        return err, events;
      }
      if !o.dryRun {
        events := events + [ReleaseDeleted(o.releaseName)];
      }
    }
  }

  /** The Tiller phase: skipped when Tiller runs outside the cluster. */
  method RemoveTillerPhase(o: CleanupOptions, env: Environment) returns (err: Status, events: seq<Event>)
    ensures StepOf(err, events) == TillerPhase(o, env)
  {
    err, events := Nil, [];
    if !o.tillerOutCluster && o.tillerCleanup {
      events := events + [TillerWillBeRemoved(o.tillerNamespace)];
      events := events + [RemoveTiller(o.tillerNamespace, o.dryRun)];
      err := env.removeTiller;
      if err.Error? {
        return err, events;
      }
      if !o.dryRun {
        events := events + [TillerRemoved(o.tillerNamespace)];
      }
    }
  }

  /** The configuration phase: removes the Helm v2 home folder. */
  method RemoveConfigPhase(o: CleanupOptions, env: Environment) returns (err: Status, events: seq<Event>)
    ensures StepOf(err, events) == ConfigPhase(o, env)
  {
    err, events := Nil, [];
    if o.configCleanup {
      events := events + [RemoveHomeFolder(o.dryRun)];
      err := env.removeHomeFolder;
    }
  }

  /** Everything after the confirmation: the three phases, each returning at its error, then the success line. */
  method RunPhases(o: CleanupOptions, kubeConfig: KubeConfig, env: Environment)
    returns (result: Status, events: seq<Event>)
    ensures Run(result, events) == Phases(o, kubeConfig, env, AsWritten)
  {
    var err, released := DeleteReleases(o, kubeConfig, env);
    ChainPhases(StepOf(err, released), TillerPhase(o, env), ConfigPhase(o, env), Reported(o, CleanedUp));
    if err.Error? {
      return err, released;
    }
    var tillerEvents;
    err, tillerEvents := RemoveTillerPhase(o, env);
    if err.Error? {
      return err, released + tillerEvents;
    }
    var configEvents;
    err, configEvents := RemoveConfigPhase(o, env);
    events := released + tillerEvents + configEvents;
    if err.Error? {
      return err, events;
    }
    if !o.dryRun {
      events := events + [CleanedUp];
    }
    return Nil, events;
  }

  /** Runs one cleanup: validates and normalizes the options, then goes on with the resolved plan. */
  method Cleanup(options: CleanupOptions, kubeConfig: KubeConfig, env: Environment)
    returns (result: Status, trace: seq<Event>)
    ensures Run(result, trace) == CleanupRun(options, kubeConfig, env, AsWritten)
  {
    var o := options;
    if o.releaseName != "" {
      if o.configCleanup || o.tillerCleanup {
        return Error(SingularOperationError), [];
      }
      o := o.(releaseCleanup := true);
    } else if !o.configCleanup && !o.releaseCleanup && !o.tillerCleanup {
      o := o.(configCleanup := true, releaseCleanup := true, tillerCleanup := true);
    }
    assert Resolve(options) == Resolved(o);
    result, trace := CleanupResolved(o, kubeConfig, env);
  }

  /**
   * The confirmation gate: skipped when asked to, otherwise the operator is
   * prompted. The cleanup goes on only when `proceed` is set; otherwise it
   * returns `err`, the prompt's failure or nil when the operator declined.
   */
  method Confirm(o: CleanupOptions, env: Environment)
    returns (proceed: bool, err: Status, events: seq<Event>)
    ensures Gate(o, env) == if proceed then Continue(events) else Return(events, err)
  {
    var doCleanup: bool;
    if o.skipConfirmation {
      events := [SkippingConfirmation];
      doCleanup, err := true, Nil;
    } else {
      events := [AskConfirmation(ConfirmTitle, ConfirmQuestion)];
      match env.answer {
        case Yes => doCleanup, err := true, Nil;
        case No => doCleanup, err := false, Nil;
        case PromptError(m) => doCleanup, err := false, Error(m);
      }
    }
    if err.Error? {
      return false, err, events;
    }
    if !doCleanup {
      events := events + [NotProceeding];
      return false, Nil, events;
    }
    events := events + [WillCleanUp];
    proceed := true;
  }

  /** The warning, the confirmation, then the three phases, for options already resolved. */
  method CleanupResolved(o: CleanupOptions, kubeConfig: KubeConfig, env: Environment)
    returns (result: Status, trace: seq<Event>)
    ensures Run(result, trace) == Then(Announce(o), Then(Gate(o, env), Phases(o, kubeConfig, env, AsWritten)))
  {
    trace := [];
    if o.dryRun {
      trace := [DryRunNotice];
    }
    var message := BuildWarning(o);
    trace := trace + [ShowWarning(message)];
    assert Announce(o) == Continue(trace);
    ChainRun(Announce(o), Gate(o, env), Phases(o, kubeConfig, env, AsWritten));

    var proceed, err, confirmation := Confirm(o, env);
    trace := trace + confirmation;
    if !proceed {
      return err, trace;
    }
    var events;
    result, events := RunPhases(o, kubeConfig, env);
    trace := trace + events;
  }
}
