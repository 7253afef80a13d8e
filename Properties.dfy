/**
 * What a cleanup promises, stated over `CleanupRun`: validation comes before
 * anything else, the confirmation gate stops cleanly, only the planned
 * helpers are called and in order, every call carries the options it should,
 * dry runs report nothing as done, and, as written, a failed deletion of a
 * named release's versions goes unnoticed.
 */
module Properties {
  import opened Options
  import opened Warning
  import opened Collaborators
  import opened Sequencer

  // ---------------------------------------------------------------------------
  // The shape of a run

  /** A resolved cleanup logs the announcement and the gate, then, if it goes on, the phases. */
  lemma RunParts(options: CleanupOptions, kube: KubeConfig, env: Environment, v: Variant)
    requires Resolve(options).Resolved?
    ensures var o := Resolve(options).options;
      var run, g, rest := CleanupRun(options, kube, env, v), Gate(o, env), Phases(o, kube, env, v);
      var head := Announce(o).events + g.events;
      (g.Return? ==> run == Run(g.status, head)) &&
      (g.Continue? ==> run == Run(rest.status, head + rest.trace))
  {
    var o := Resolve(options).options;
    ChainRun(Announce(o), Gate(o, env), Phases(o, kube, env, v));
  }

  /** Every event of a chained step comes from the step or from what follows it. */
  lemma ThenEvents(s: Step, rest: Run, P: Event -> bool)
    requires forall e | e in s.events :: P(e)
    requires s.Continue? ==> forall e | e in rest.trace :: P(e)
    ensures forall e | e in Then(s, rest).trace :: P(e)
  {
  }

  // ---------------------------------------------------------------------------
  // Validation

  /**
   * A named release combined with configuration or Tiller cleanup is refused
   * with the singular-operation error before anything is printed, asked or
   * called; any other options lead at least to the warning.
   */
  lemma ConflictRejectedFirst(options: CleanupOptions, kube: KubeConfig, env: Environment, v: Variant)
    ensures var run := CleanupRun(options, kube, env, v);
      (Conflicting(options) ==> run == Run(Error(SingularOperationError), [])) &&
      (!Conflicting(options) ==> ShowWarning(WarningMessage(Resolve(options).options)) in run.trace)
  {
    if !Conflicting(options) {
      var o := Resolve(options).options;
      RunParts(options, kube, env, v);
      assert ShowWarning(WarningMessage(o)) in Announce(o).events;
    }
  }

  // ---------------------------------------------------------------------------
  // The confirmation gate

  /** A declined prompt returns nil after the prompt, having called no helper. */
  lemma DeclineStopsCleanly(options: CleanupOptions, kube: KubeConfig, env: Environment, v: Variant)
    requires Resolve(options).Resolved? && !Resolve(options).options.skipConfirmation && env.answer.No?
    ensures var run := CleanupRun(options, kube, env, v);
      run.status == Nil && Calls(run.trace) == [] &&
      |run.trace| >= 2 && run.trace[|run.trace| - 2] == AskConfirmation(ConfirmTitle, ConfirmQuestion) &&
      run.trace[|run.trace| - 1] == NotProceeding
  {
    var o := Resolve(options).options;
    RunParts(options, kube, env, v);
    GateCalls(o, env);
    AnnounceCalls(o);
    CallsAppend(Announce(o).events, Gate(o, env).events);
  }

  /** A failing prompt returns its error right after the prompt, having called no helper. */
  lemma PromptErrorStops(options: CleanupOptions, kube: KubeConfig, env: Environment, v: Variant)
    requires Resolve(options).Resolved? && !Resolve(options).options.skipConfirmation
    requires env.answer.PromptError?
    ensures var run := CleanupRun(options, kube, env, v);
      run.status == Error(env.answer.message) && Calls(run.trace) == [] &&
      |run.trace| >= 1 && run.trace[|run.trace| - 1] == AskConfirmation(ConfirmTitle, ConfirmQuestion)
  {
    var o := Resolve(options).options;
    RunParts(options, kube, env, v);
    GateCalls(o, env);
    AnnounceCalls(o);
    CallsAppend(Announce(o).events, Gate(o, env).events);
  }

  /** Skipping the confirmation means no prompt at all, and the cleanup goes on. */
  lemma SkipNeverPrompts(options: CleanupOptions, kube: KubeConfig, env: Environment, v: Variant)
    requires Resolve(options).Resolved? && Resolve(options).options.skipConfirmation
    ensures var run := CleanupRun(options, kube, env, v);
      (forall e | e in run.trace :: !e.AskConfirmation?) &&
      SkippingConfirmation in run.trace && WillCleanUp in run.trace
  {
    var o := Resolve(options).options;
    RunParts(options, kube, env, v);
    PhasesEvents(o, kube, env, v);
    var rest := Phases(o, kube, env, v);
    assert forall e | e in rest.trace :: !e.AskConfirmation?;
  }

  lemma AnnounceCalls(o: CleanupOptions)
    ensures Calls(Announce(o).events) == []
  {
    var warn := ShowWarning(WarningMessage(o));
    CallsSingle(DryRunNotice);
    CallsSingle(warn);
    CallsAppend(if o.dryRun then [DryRunNotice] else [], [warn]);
  }

  lemma GateCalls(o: CleanupOptions, env: Environment)
    ensures Calls(Gate(o, env).events) == []
  {
    var ask := AskConfirmation(ConfirmTitle, ConfirmQuestion);
    var first := if o.skipConfirmation then SkippingConfirmation else ask;
    CallsSingle(first);
    CallsSingle(WillCleanUp);
    CallsSingle(NotProceeding);
    CallsPair(first, WillCleanUp, []);
    CallsPair(first, NotProceeding, []);
    assert [first, WillCleanUp] + [] == [first, WillCleanUp];
    assert [first, NotProceeding] + [] == [first, NotProceeding];
  }

  // ---------------------------------------------------------------------------
  // What a cleanup logs, and with which arguments it calls the helpers

  /** A line logged before the phases: the dry-run banner, the warning, or the gate's lines. */
  predicate HeadEvent(e: Event) {
    e.DryRunNotice? || e.ShowWarning? || e.SkippingConfirmation? || e.AskConfirmation? ||
    e.NotProceeding? || e.WillCleanUp?
  }

  /**
   * An event the phases may log for options `o`: a phase log line, or a
   * helper call carrying exactly the arguments the command passes, and no
   * report of something done during a dry run.
   */
  predicate PhaseEvent(o: CleanupOptions, kube: KubeConfig, env: Environment, e: Event) {
    (e.ReleaseWillBeDeleted? || e.ReleaseDeleted? || e.TillerWillBeRemoved? || e.TillerRemoved? ||
     e.CleanedUp? || IsHelperCall(e)) &&
    (e.DeleteAllReleaseVersions? ==> e == DeleteAllReleaseVersions(RetrieveOf(o), kube, o.dryRun)) &&
    (e.GetReleaseVersions? ==> e == GetReleaseVersions(RetrieveOf(o), kube)) &&
    (e.DeleteReleaseVersions? ==>
      env.lookup.Found? &&
      e == DeleteReleaseVersions(RetrieveOf(o), DeleteOptions(o.dryRun, VersionsOf(env.lookup.releases)), kube)) &&
    (e.RemoveTiller? ==> e == RemoveTiller(o.tillerNamespace, o.dryRun)) &&
    (e.RemoveHomeFolder? ==> e == RemoveHomeFolder(o.dryRun)) &&
    (o.dryRun ==> !IsDoneReport(e))
  }

  lemma HeadEvents(o: CleanupOptions, env: Environment)
    ensures forall e | e in Announce(o).events + Gate(o, env).events :: HeadEvent(e)
  {
  }

  lemma ReleaseEvents(o: CleanupOptions, kube: KubeConfig, env: Environment, v: Variant)
    ensures forall e | e in ReleasePhase(o, kube, env, v).events :: PhaseEvent(o, kube, env, e)
  {
  }

  lemma TillerEvents(o: CleanupOptions, kube: KubeConfig, env: Environment)
    ensures forall e | e in TillerPhase(o, env).events :: PhaseEvent(o, kube, env, e)
  {
  }

  lemma ConfigEvents(o: CleanupOptions, kube: KubeConfig, env: Environment)
    ensures forall e | e in ConfigPhase(o, env).events :: PhaseEvent(o, kube, env, e)
  {
  }

  lemma PhasesEvents(o: CleanupOptions, kube: KubeConfig, env: Environment, v: Variant)
    ensures forall e | e in Phases(o, kube, env, v).trace :: PhaseEvent(o, kube, env, e)
  {
    var P := e => PhaseEvent(o, kube, env, e);
    var finish := Run(Nil, Reported(o, CleanedUp));
    ConfigEvents(o, kube, env);
    ThenEvents(ConfigPhase(o, env), finish, P);
    var r3 := Then(ConfigPhase(o, env), finish);
    TillerEvents(o, kube, env);
    ThenEvents(TillerPhase(o, env), r3, P);
    var r2 := Then(TillerPhase(o, env), r3);
    ReleaseEvents(o, kube, env, v);
    ThenEvents(ReleasePhase(o, kube, env, v), r2, P);
  }

  /** Every line of a resolved cleanup is a line logged before the phases or a phase event. */
  lemma RunEvents(options: CleanupOptions, kube: KubeConfig, env: Environment, v: Variant)
    requires Resolve(options).Resolved?
    ensures var o := Resolve(options).options;
      forall e | e in CleanupRun(options, kube, env, v).trace :: HeadEvent(e) || PhaseEvent(o, kube, env, e)
  {
    var o := Resolve(options).options;
    RunParts(options, kube, env, v);
    HeadEvents(o, env);
    PhasesEvents(o, kube, env, v);
  }

  /**
   * Every helper call of a cleanup carries the options it should: the
   * release-storage helpers get the retrieve options built from the cleanup
   * options and the cluster connection, `DeleteReleaseVersions` gets the
   * versions the lookup returned, `RemoveTiller` gets the namespace (and no
   * label), and every mutating call gets the dry-run flag as given.
   */
  lemma CallArguments(options: CleanupOptions, kube: KubeConfig, env: Environment, v: Variant)
    requires Resolve(options).Resolved?
    ensures var o := Resolve(options).options;
      forall e | e in CleanupRun(options, kube, env, v).trace && IsHelperCall(e) :: PhaseEvent(o, kube, env, e)
  {
    RunEvents(options, kube, env, v);
  }

  /**
   * The dry-run flag reaches every mutating call unchanged, and a dry run
   * reports nothing as deleted, removed or cleaned up.
   */
  lemma DryRunThreaded(options: CleanupOptions, kube: KubeConfig, env: Environment, v: Variant)
    ensures var trace := CleanupRun(options, kube, env, v).trace;
      (forall e | e in trace && IsMutation(e) :: DryRunOf(e) == options.dryRun) &&
      (options.dryRun ==> forall e | e in trace :: !IsDoneReport(e))
  {
    if !Conflicting(options) {
      RunEvents(options, kube, env, v);
    }
  }

  /** A step that returns does so right after the helper call that failed, with that call's error. */
  predicate EndsAtFailedCall(s: Step, env: Environment) {
    s.Return? ==>
      |s.events| > 0 && IsHelperCall(s.events[|s.events| - 1]) &&
      s.status == ResultOf(HelperOf(s.events[|s.events| - 1]), env)
  }

  /** A run that fails does so right after the helper call that failed, with that call's error. */
  predicate RunEndsAtFailedCall(run: Run, env: Environment) {
    run.status.Error? ==>
      |run.trace| > 0 && IsHelperCall(run.trace[|run.trace| - 1]) &&
      run.status == ResultOf(HelperOf(run.trace[|run.trace| - 1]), env)
  }

  lemma LastOfAppend(a: seq<Event>, b: seq<Event>)
    requires |b| > 0
    ensures (a + b)[|a + b| - 1] == b[|b| - 1]
  {
  }

  lemma ThenEndsAtFailedCall(s: Step, rest: Run, env: Environment)
    requires EndsAtFailedCall(s, env) && RunEndsAtFailedCall(rest, env)
    ensures RunEndsAtFailedCall(Then(s, rest), env)
  {
    if s.Continue? && rest.status.Error? {
      LastOfAppend(s.events, rest.trace);
    }
  }

  lemma PhasesEndAtFailedCall(o: CleanupOptions, kube: KubeConfig, env: Environment, v: Variant)
    ensures RunEndsAtFailedCall(Phases(o, kube, env, v), env)
  {
    var finish := Run(Nil, Reported(o, CleanedUp));
    assert EndsAtFailedCall(ConfigPhase(o, env), env);
    ThenEndsAtFailedCall(ConfigPhase(o, env), finish, env);
    var r3 := Then(ConfigPhase(o, env), finish);
    assert EndsAtFailedCall(TillerPhase(o, env), env);
    ThenEndsAtFailedCall(TillerPhase(o, env), r3, env);
    var r2 := Then(TillerPhase(o, env), r3);
    assert EndsAtFailedCall(ReleasePhase(o, kube, env, v), env);
    ThenEndsAtFailedCall(ReleasePhase(o, kube, env, v), r2, env);
  }

  /**
   * Once the operator has agreed, an error is returned right after the
   * helper call that produced it: nothing is logged after a failure.
   */
  lemma ErrorEndsAtFailedCall(options: CleanupOptions, kube: KubeConfig, env: Environment, v: Variant)
    requires Resolve(options).Resolved? && Proceeds(Resolve(options).options, env)
    ensures var run := CleanupRun(options, kube, env, v);
      run.status.Error? ==>
        |run.trace| > 0 && IsHelperCall(run.trace[|run.trace| - 1]) &&
        run.status == ResultOf(HelperOf(run.trace[|run.trace| - 1]), env)
  {
    var o := Resolve(options).options;
    RunParts(options, kube, env, v);
    PhasesEndAtFailedCall(o, kube, env, v);
    var rest := Phases(o, kube, env, v);
    if rest.status.Error? {
      LastOfAppend(Announce(o).events + Gate(o, env).events, rest.trace);
    }
  }

  /** Phases that return nil outside a dry run end with the success line. */
  lemma PhasesEndWithSuccess(o: CleanupOptions, kube: KubeConfig, env: Environment, v: Variant)
    requires Phases(o, kube, env, v).status.Nil? && !o.dryRun
    ensures var trace := Phases(o, kube, env, v).trace;
      |trace| > 0 && trace[|trace| - 1] == CleanedUp
  {
    var r, t, c := ReleasePhase(o, kube, env, v), TillerPhase(o, env), ConfigPhase(o, env);
    ChainPhases(r, t, c, Reported(o, CleanedUp));
    LastOfAppend(r.events + t.events + c.events, [CleanedUp]);
  }

  /**
   * Once the operator has agreed, the last line says the cleanup succeeded
   * exactly when it returned nil outside a dry run.
   */
  lemma SuccessReported(options: CleanupOptions, kube: KubeConfig, env: Environment, v: Variant)
    requires Resolve(options).Resolved? && Proceeds(Resolve(options).options, env)
    ensures var run := CleanupRun(options, kube, env, v);
      |run.trace| > 0 &&
      (run.trace[|run.trace| - 1] == CleanedUp <==> run.status.Nil? && !options.dryRun)
  {
    var o := Resolve(options).options;
    var run := CleanupRun(options, kube, env, v);
    RunParts(options, kube, env, v);
    ErrorEndsAtFailedCall(options, kube, env, v);
    DryRunThreaded(options, kube, env, v);
    assert run.trace[|run.trace| - 1] in run.trace;
    if run.status.Nil? && !o.dryRun {
      PhasesEndWithSuccess(o, kube, env, v);
      LastOfAppend(Announce(o).events + Gate(o, env).events, Phases(o, kube, env, v).trace);
    }
  }

  // ---------------------------------------------------------------------------
  // Which helpers are called, and in which order

  /**
   * The helpers a cleanup calls are always the first calls of its plan
   * (release, then Tiller, then configuration); once the operator has agreed
   * they run until the first checked failure, which is returned, and all of
   * them run when none fails.
   */
  lemma CallsFollowPlan(options: CleanupOptions, kube: KubeConfig, env: Environment, v: Variant)
    requires Resolve(options).Resolved?
    ensures var o, run := Resolve(options).options, CleanupRun(options, kube, env, v);
      var calls, plan := Calls(run.trace), Planned(o);
      |calls| <= |plan| && calls == plan[..|calls|] &&
      (Proceeds(o, env) ==>
        (forall i | 0 <= i < |calls| - 1 :: !Aborts(calls[i], env, v)) &&
        (run.status.Error? ==> |calls| > 0 && run.status == ResultOf(calls[|calls| - 1], env)) &&
        (run.status.Nil? ==> calls == plan))
  {
    var o := Resolve(options).options;
    if Proceeds(o, env) {
      Sequencing(options, kube, env, v);
      ExecutedStopsAtFirstAbort(Planned(o), env, v);
    } else {
      RunParts(options, kube, env, v);
      AnnounceCalls(o);
      GateCalls(o, env);
      CallsAppend(Announce(o).events, Gate(o, env).events);
    }
  }

  /**
   * The warning still names Tiller when Tiller runs outside the cluster, but
   * `RemoveTiller` is then never called.
   */
  lemma TillerAnnouncedButSkipped(options: CleanupOptions, kube: KubeConfig, env: Environment, v: Variant)
    requires Resolve(options).Resolved?
    requires Resolve(options).options.tillerCleanup && options.tillerOutCluster
    ensures var o := Resolve(options).options;
      Decode(WarningMessage(o)).Some? && Decode(WarningMessage(o)).value.tiller &&
      Tiller !in Calls(CleanupRun(options, kube, env, v).trace)
  {
    var o := Resolve(options).options;
    DecodeWarning(o);
    CallsFollowPlan(options, kube, env, v);
    var calls := Calls(CleanupRun(options, kube, env, v).trace);
    assert Tiller !in Planned(o);
  }

  // ---------------------------------------------------------------------------
  // A named release

  /** The events of a step are all in the run it starts, whether it goes on or returns. */
  lemma StepEventsKept(s: Step, rest: Run)
    ensures forall e | e in s.events :: e in Then(s, rest).trace
  {
  }

  /** The release phase's events are all in the run once the operator has agreed. */
  lemma ReleaseEventsKept(options: CleanupOptions, kube: KubeConfig, env: Environment, v: Variant)
    requires Resolve(options).Resolved? && Proceeds(Resolve(options).options, env)
    ensures var o := Resolve(options).options;
      forall e | e in ReleasePhase(o, kube, env, v).events :: e in CleanupRun(options, kube, env, v).trace
  {
    var o := Resolve(options).options;
    RunParts(options, kube, env, v);
    StepEventsKept(ReleasePhase(o, kube, env, v), Then(TillerPhase(o, env), Then(ConfigPhase(o, env), Run(Nil, Reported(o, CleanedUp)))));
  }

  /** A failed release phase decides the status of the run. */
  lemma ReleaseStatus(options: CleanupOptions, kube: KubeConfig, env: Environment, v: Variant)
    requires Resolve(options).Resolved? && Proceeds(Resolve(options).options, env)
    ensures var o := Resolve(options).options;
      var r := ReleasePhase(o, kube, env, v);
      r.Return? ==> CleanupRun(options, kube, env, v).status == r.status
  {
    var o := Resolve(options).options;
    RunParts(options, kube, env, v);
    ChainPhases(ReleasePhase(o, kube, env, v), TillerPhase(o, env), ConfigPhase(o, env), Reported(o, CleanedUp));
  }

  /**
   * A named release is looked up first; when the lookup fails its error is
   * returned and no other helper is called.
   */
  lemma NamedLookupFails(options: CleanupOptions, kube: KubeConfig, env: Environment, v: Variant)
    requires Resolve(options).Resolved? && Proceeds(Resolve(options).options, env)
    requires options.releaseName != "" && env.lookup.LookupError?
    ensures var run := CleanupRun(options, kube, env, v);
      run.status == Error(env.lookup.message) && Calls(run.trace) == [Lookup]
  {
    var o := Resolve(options).options;
    var run := CleanupRun(options, kube, env, v);
    ReleaseStatus(options, kube, env, v);
    CallsFollowPlan(options, kube, env, v);
    var calls := Calls(run.trace);
    assert Planned(o) == [Lookup, DeleteVersions];
    assert calls[0] == Lookup && Aborts(calls[0], env, v);
    assert |calls| == 1;
  }

  /**
   * When the lookup of a named release succeeds, `DeleteReleaseVersions` is
   * given exactly the versions found, in the order found (possibly none),
   * together with the dry-run flag.
   */
  lemma NamedVersionsDeleted(options: CleanupOptions, kube: KubeConfig, env: Environment, v: Variant)
    requires Resolve(options).Resolved? && Proceeds(Resolve(options).options, env)
    requires options.releaseName != "" && env.lookup.Found?
    ensures var o, run := Resolve(options).options, CleanupRun(options, kube, env, v);
      var ro := RetrieveOf(o);
      GetReleaseVersions(ro, kube) in run.trace &&
      DeleteReleaseVersions(ro, DeleteOptions(options.dryRun, VersionsOf(env.lookup.releases)), kube) in run.trace
  {
    var o := Resolve(options).options;
    ReleaseEventsKept(options, kube, env, v);
    var ro := RetrieveOf(o);
    assert GetReleaseVersions(ro, kube) in ReleasePhase(o, kube, env, v).events;
    assert DeleteReleaseVersions(ro, DeleteOptions(o.dryRun, VersionsOf(env.lookup.releases)), kube)
      in ReleasePhase(o, kube, env, v).events;
  }

  // ---------------------------------------------------------------------------
  // The ignored deletion error

  /**
   * As written, when deleting the versions of a named release fails the
   * cleanup still returns nil and, outside a dry run, reports the release
   * deleted and the cleanup successful.
   */
  lemma NamedDeleteErrorIgnored(options: CleanupOptions, kube: KubeConfig, env: Environment)
    requires Resolve(options).Resolved? && Proceeds(Resolve(options).options, env)
    requires options.releaseName != "" && env.lookup.Found? && env.deleteVersions.Error?
    ensures var run := CleanupRun(options, kube, env, AsWritten);
      run.status == Nil &&
      (!options.dryRun ==>
        ReleaseDeleted(options.releaseName) in run.trace && run.trace[|run.trace| - 1] == CleanedUp)
  {
    var o := Resolve(options).options;
    CallsFollowPlan(options, kube, env, AsWritten);
    ErrorEndsAtFailedCall(options, kube, env, AsWritten);
    assert Planned(o) == [Lookup, DeleteVersions];
    assert !Aborts(Lookup, env, AsWritten) && !Aborts(DeleteVersions, env, AsWritten);
    SuccessReported(options, kube, env, AsWritten);
    ReleaseEventsKept(options, kube, env, AsWritten);
    assert !o.dryRun ==> ReleaseDeleted(o.releaseName) in ReleasePhase(o, kube, env, AsWritten).events;
  }

  /**
   * Corrected, the deletion error is returned right after the failed call,
   * and nothing is reported as deleted or cleaned up.
   */
  lemma NamedDeleteErrorReturned(options: CleanupOptions, kube: KubeConfig, env: Environment)
    requires Resolve(options).Resolved? && Proceeds(Resolve(options).options, env)
    requires options.releaseName != "" && env.lookup.Found? && env.deleteVersions.Error?
    ensures var o, run := Resolve(options).options, CleanupRun(options, kube, env, Corrected);
      run.status == env.deleteVersions &&
      run.trace[|run.trace| - 1] ==
        DeleteReleaseVersions(RetrieveOf(o), DeleteOptions(o.dryRun, VersionsOf(env.lookup.releases)), kube) &&
      forall e | e in run.trace :: !IsDoneReport(e)
  {
    var o := Resolve(options).options;
    RunParts(options, kube, env, Corrected);
    var r := ReleasePhase(o, kube, env, Corrected);
    ChainPhases(r, TillerPhase(o, env), ConfigPhase(o, env), Reported(o, CleanedUp));
    HeadEvents(o, env);
    var head := Announce(o).events + Gate(o, env).events;
    LastOfAppend(head, r.events);
  }

  /**
   * An instance: cleaning up release `app1` (versions 1, 2 and 3) when
   * deleting its versions fails. As written the cleanup succeeds; corrected
   * it returns the failure.
   */
  lemma IgnoredDeletionExample()
    ensures var options := CleanupOptions(
        configCleanup := false, dryRun := false, releaseName := "app1", releaseCleanup := false,
        skipConfirmation := true, storageType := "configmaps", tillerCleanup := false,
        tillerLabel := "OWNER=TILLER", tillerNamespace := "kube-system", tillerOutCluster := false);
      var kube := KubeConfig("", "");
      var env := Environment(Yes, Nil, Found([V2Release(1), V2Release(2), V2Release(3)]),
        Error("versions not deleted"), Nil, Nil);
      CleanupRun(options, kube, env, AsWritten).status == Nil &&
      CleanupRun(options, kube, env, Corrected).status == Error("versions not deleted")
  {
    var options := CleanupOptions(
      configCleanup := false, dryRun := false, releaseName := "app1", releaseCleanup := false,
      skipConfirmation := true, storageType := "configmaps", tillerCleanup := false,
      tillerLabel := "OWNER=TILLER", tillerNamespace := "kube-system", tillerOutCluster := false);
    var kube := KubeConfig("", "");
    var env := Environment(Yes, Nil, Found([V2Release(1), V2Release(2), V2Release(3)]),
      Error("versions not deleted"), Nil, Nil);
    NamedDeleteErrorIgnored(options, kube, env);
    NamedDeleteErrorReturned(options, kube, env);
  }
}
