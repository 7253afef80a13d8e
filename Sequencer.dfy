/**
 * What one `Cleanup` call does, as a pure function of its options, the
 * cluster connection and the environment: the error it returns and the trace
 * of prompts, helper calls and log lines it leaves. The run is a chain of
 * steps (announce, confirm, release phase, Tiller phase, config phase,
 * finish); each step either lets the next one run or returns.
 *
 * `Variant` tells the code as written from the corrected code: as written, the
 * error from deleting the versions of a named release is assigned to a
 * variable local to that branch and never checked; corrected, it is returned.
 */
module Sequencer {
  import opened Options
  import opened Warning
  import opened Collaborators

  datatype Variant = AsWritten | Corrected

  /** One stage of a cleanup: its events, then either go on or return a status. */
  datatype Step = Continue(events: seq<Event>) | Return(events: seq<Event>, status: Status)

  /** The end of a cleanup: what `Cleanup` returns and the trace it leaves. */
  datatype Run = Run(status: Status, trace: seq<Event>)

  /** Runs step `s`, then, unless it returned, whatever `rest` describes. */
  function Then(s: Step, rest: Run): Run {
    match s
    case Return(events, status) => Run(status, events)
    case Continue(events) => Run(rest.status, events + rest.trace)
  }

  /** The options the release-storage helpers are given. */
  function RetrieveOf(o: CleanupOptions): RetrieveOptions {
    RetrieveOptions(o.releaseName, o.tillerNamespace, o.tillerLabel, o.tillerOutCluster, o.storageType)
  }

  /** A log line that reports success, written only when not in dry-run mode. */
  function Reported(o: CleanupOptions, e: Event): seq<Event> {
    if o.dryRun then [] else [e]
  }

  /** The dry-run banner, then the warning. */
  function Announce(o: CleanupOptions): Step {
    Continue((if o.dryRun then [DryRunNotice] else []) + [ShowWarning(WarningMessage(o))])
  }

  /** The operator goes ahead without being asked, or is asked and says yes. */
  predicate Proceeds(o: CleanupOptions, env: Environment) {
    o.skipConfirmation || env.answer.Yes?
  }

  /** The confirmation gate. */
  function Gate(o: CleanupOptions, env: Environment): Step {
    if o.skipConfirmation then Continue([SkippingConfirmation, WillCleanUp])
    else
      var ask := AskConfirmation(ConfirmTitle, ConfirmQuestion);
      match env.answer
      case PromptError(m) => Return([ask], Error(m))
      case No => Return([ask, NotProceeding], Nil)
      case Yes => Continue([ask, WillCleanUp])
  }

  /** Deletes every release record, or every version of the named release. */
  function ReleasePhase(o: CleanupOptions, kube: KubeConfig, env: Environment, v: Variant): Step {
    if !o.releaseCleanup then Continue([])
    else
      var ro := RetrieveOf(o);
      var intent := ReleaseWillBeDeleted(o.releaseName);
      var done := Reported(o, ReleaseDeleted(o.releaseName));
      if o.releaseName == "" then
        var events := [intent, DeleteAllReleaseVersions(ro, kube, o.dryRun)];
        if env.deleteAll.Error? then Return(events, env.deleteAll) else Continue(events + done)
      else
        match env.lookup
        case LookupError(m) => Return([intent, GetReleaseVersions(ro, kube)], Error(m))
        case Found(releases) =>
          var events := [intent, GetReleaseVersions(ro, kube),
            DeleteReleaseVersions(ro, DeleteOptions(o.dryRun, VersionsOf(releases)), kube)];
          if v == Corrected && env.deleteVersions.Error? then Return(events, env.deleteVersions)
          else Continue(events + done)
  }

  /** Removes Tiller from its namespace, unless Tiller runs outside the cluster. */
  function TillerPhase(o: CleanupOptions, env: Environment): Step {
    if o.tillerOutCluster || !o.tillerCleanup then Continue([])
    else
      var events := [TillerWillBeRemoved(o.tillerNamespace), RemoveTiller(o.tillerNamespace, o.dryRun)];
      if env.removeTiller.Error? then Return(events, env.removeTiller)
      else Continue(events + Reported(o, TillerRemoved(o.tillerNamespace)))
  }

  /** Removes the Helm v2 home folder. */
  function ConfigPhase(o: CleanupOptions, env: Environment): Step {
    if !o.configCleanup then Continue([])
    else if env.removeHomeFolder.Error? then Return([RemoveHomeFolder(o.dryRun)], env.removeHomeFolder)
    else Continue([RemoveHomeFolder(o.dryRun)])
  }

  /** Everything after the gate: the three phases in order, then the success line. */
  function Phases(o: CleanupOptions, kube: KubeConfig, env: Environment, v: Variant): Run {
    Then(ReleasePhase(o, kube, env, v),
      Then(TillerPhase(o, env),
        Then(ConfigPhase(o, env),
          Run(Nil, Reported(o, CleanedUp)))))
  }

  /** A whole cleanup. */
  function CleanupRun(options: CleanupOptions, kube: KubeConfig, env: Environment, v: Variant): Run {
    match Resolve(options)
    case Rejected(m) => Run(Error(m), [])
    case Resolved(o) => Then(Announce(o), Then(Gate(o, env), Phases(o, kube, env, v)))
  }

  /** The announcement, the gate and the rest, flattened: where they return and what they logged by then. */
  lemma ChainRun(a: Step, g: Step, rest: Run)
    requires a.Continue?
    ensures Then(a, Then(g, rest)) ==
      if g.Return? then Run(g.status, a.events + g.events)
      else Run(rest.status, a.events + g.events + rest.trace)
  {
    if g.Continue? {
      assert a.events + (g.events + rest.trace) == a.events + g.events + rest.trace;
    }
  }

  /** The three phases and the success line, flattened: where they return and what they logged by then. */
  lemma ChainPhases(r: Step, t: Step, c: Step, f: seq<Event>)
    ensures Then(r, Then(t, Then(c, Run(Nil, f)))) ==
      if r.Return? then Run(r.status, r.events)
      else if t.Return? then Run(t.status, r.events + t.events)
      else if c.Return? then Run(c.status, r.events + t.events + c.events)
      else Run(Nil, r.events + t.events + c.events + f)
  {
    if r.Continue? && t.Continue? && c.Continue? {
      assert r.events + (t.events + (c.events + f)) == r.events + t.events + c.events + f;
    } else if r.Continue? && t.Continue? {
      assert r.events + (t.events + c.events) == r.events + t.events + c.events;
    }
  }

  // ---------------------------------------------------------------------------
  // Reference semantics: the calls a plan asks for, made in order until one fails.

  /** The helper calls a normalized plan asks for, in order, if none fails. */
  function ReleasePlan(o: CleanupOptions): seq<Helper> {
    if !o.releaseCleanup then [] else if o.releaseName == "" then [DeleteAll] else [Lookup, DeleteVersions]
  }

  function TillerPlan(o: CleanupOptions): seq<Helper> {
    if o.tillerCleanup && !o.tillerOutCluster then [Tiller] else []
  }

  function ConfigPlan(o: CleanupOptions): seq<Helper> {
    if o.configCleanup then [HomeFolder] else []
  }

  /** Release first, then Tiller, then the configuration. */
  function Planned(o: CleanupOptions): seq<Helper> {
    ReleasePlan(o) + TillerPlan(o) + ConfigPlan(o)
  }

  /** A failure of this call ends the cleanup (as written, one of them goes unnoticed). */
  predicate Aborts(h: Helper, env: Environment, v: Variant) {
    ResultOf(h, env).Error? && (h != DeleteVersions || v == Corrected)
  }

  /** Makes the `planned` calls in order and stops at the first one that aborts. */
  function Executed(planned: seq<Helper>, env: Environment, v: Variant): (seq<Helper>, Status) {
    if planned == [] then ([], Nil)
    else if Aborts(planned[0], env, v) then ([planned[0]], ResultOf(planned[0], env))
    else
      var r := Executed(planned[1..], env, v);
      ([planned[0]] + r.0, r.1)
  }

  /**
   * The calls made are a prefix of the plan, none but the last aborted, and
   * the status is the last call's error if it aborted, nil otherwise, in
   * which case the whole plan was carried out.
   */
  lemma {:induction false} ExecutedStopsAtFirstAbort(planned: seq<Helper>, env: Environment, v: Variant)
    ensures var r := Executed(planned, env, v);
      |r.0| <= |planned| && r.0 == planned[..|r.0|] &&
      (forall i | 0 <= i < |r.0| - 1 :: !Aborts(r.0[i], env, v)) &&
      (r.1.Error? <==> exists i | 0 <= i < |planned| :: Aborts(planned[i], env, v)) &&
      (r.1.Error? ==> |r.0| > 0 && Aborts(r.0[|r.0| - 1], env, v) && r.1 == ResultOf(r.0[|r.0| - 1], env)) &&
      (r.1.Nil? ==> r.0 == planned)
  {
    if planned != [] && !Aborts(planned[0], env, v) {
      var tail := planned[1..];
      ExecutedStopsAtFirstAbort(tail, env, v);
      var r := Executed(tail, env, v);
      assert Executed(planned, env, v) == ([planned[0]] + r.0, r.1);
      assert forall i | 1 <= i < |planned| :: planned[i] == tail[i - 1];
      if r.1.Error? {
        var i :| 0 <= i < |tail| && Aborts(tail[i], env, v);
        assert Aborts(planned[i + 1], env, v);
      }
      assert planned == [planned[0]] + tail;
    }
  }

  lemma {:induction false} ExecutedAppend(a: seq<Helper>, b: seq<Helper>, env: Environment, v: Variant)
    ensures Executed(a + b, env, v) ==
      var ra := Executed(a, env, v);
      if ra.1.Error? then ra
      else var rb := Executed(b, env, v); (ra.0 + rb.0, rb.1)
  {
    if a == [] {
      assert a + b == b;
      assert [] + Executed(b, env, v).0 == Executed(b, env, v).0;
    } else {
      assert (a + b)[1..] == a[1..] + b;
      ExecutedAppend(a[1..], b, env, v);
      if !Aborts(a[0], env, v) {
        var ra := Executed(a[1..], env, v);
        if !ra.1.Error? {
          var rb := Executed(b, env, v);
          assert [a[0]] + (ra.0 + rb.0) == [a[0]] + ra.0 + rb.0;
        }
      }
    }
  }

  /** Step `s` makes the calls of `plan` up to the first abort, and returns exactly then. */
  predicate Follows(s: Step, plan: seq<Helper>, env: Environment, v: Variant) {
    var r := Executed(plan, env, v);
    Calls(s.events) == r.0 && (s.Return? <==> r.1.Error?) && (s.Return? ==> s.status == r.1)
  }

  /** Run `run` makes the calls of `plan` up to the first abort and returns its status. */
  predicate RunFollows(run: Run, plan: seq<Helper>, env: Environment, v: Variant) {
    var r := Executed(plan, env, v);
    Calls(run.trace) == r.0 && run.status == r.1
  }

  lemma ThenFollows(s: Step, rest: Run, p: seq<Helper>, q: seq<Helper>, env: Environment, v: Variant)
    requires Follows(s, p, env, v) && RunFollows(rest, q, env, v)
    ensures RunFollows(Then(s, rest), p + q, env, v)
  {
    ExecutedAppend(p, q, env, v);
    if s.Continue? {
      CallsAppend(s.events, rest.trace);
    }
  }

  lemma ReportedHasNoCalls(o: CleanupOptions, e: Event)
    requires !IsHelperCall(e)
    ensures Calls(Reported(o, e)) == []
  {
    CallsSingle(e);
  }

  lemma BulkReleaseFollows(o: CleanupOptions, kube: KubeConfig, env: Environment, v: Variant)
    requires o.releaseCleanup && o.releaseName == ""
    ensures Follows(ReleasePhase(o, kube, env, v), [DeleteAll], env, v)
  {
    var intent := ReleaseWillBeDeleted(o.releaseName);
    var call := DeleteAllReleaseVersions(RetrieveOf(o), kube, o.dryRun);
    var done := Reported(o, ReleaseDeleted(o.releaseName));
    CallsSingle(intent);
    CallsSingle(call);
    ReportedHasNoCalls(o, ReleaseDeleted(o.releaseName));
    CallsPair(intent, call, done);
    CallsPair(intent, call, []);
    assert [intent, call] + [] == [intent, call];
    assert Executed([DeleteAll], env, v) ==
      if env.deleteAll.Error? then ([DeleteAll], env.deleteAll) else ([DeleteAll], Nil);
  }

  lemma NamedReleaseNotFound(o: CleanupOptions, kube: KubeConfig, env: Environment, v: Variant)
    requires o.releaseCleanup && o.releaseName != "" && env.lookup.LookupError?
    ensures Follows(ReleasePhase(o, kube, env, v), [Lookup, DeleteVersions], env, v)
  {
    var intent := ReleaseWillBeDeleted(o.releaseName);
    var get := GetReleaseVersions(RetrieveOf(o), kube);
    CallsSingle(intent);
    CallsSingle(get);
    CallsPair(intent, get, []);
    assert [intent, get] + [] == [intent, get];
    assert Executed([Lookup, DeleteVersions], env, v) == ([Lookup], Error(env.lookup.message));
  }

  /** The calls of the intent line, the lookup and the deletion. */
  lemma LookupThenDeleteCalls(intent: Event, get: Event, del: Event)
    requires !IsHelperCall(intent) && get.GetReleaseVersions? && del.DeleteReleaseVersions?
    ensures Calls([intent, get, del]) == [Lookup, DeleteVersions]
  {
    CallsSingle(intent);
    CallsSingle(get);
    CallsSingle(del);
    CallsPair(intent, get, [del]);
    assert [intent, get] + [del] == [intent, get, del];
  }

  /** The lookup succeeded: the deletion is made, and it ends the cleanup only if it aborts. */
  lemma LookupThenDeleteExecuted(env: Environment, v: Variant)
    requires env.lookup.Found?
    ensures Executed([Lookup, DeleteVersions], env, v) ==
      ([Lookup, DeleteVersions], if Aborts(DeleteVersions, env, v) then env.deleteVersions else Nil)
  {
    assert !Aborts(Lookup, env, v);
    assert [Lookup, DeleteVersions][1..] == [DeleteVersions];
    assert [DeleteVersions][1..] == [];
    assert [DeleteVersions] + [] == [DeleteVersions];
    assert Executed([DeleteVersions], env, v) ==
      if Aborts(DeleteVersions, env, v) then ([DeleteVersions], env.deleteVersions) else ([DeleteVersions], Nil);
    assert [Lookup] + [DeleteVersions] == [Lookup, DeleteVersions];
  }

  lemma NamedReleaseFound(o: CleanupOptions, kube: KubeConfig, env: Environment, v: Variant)
    requires o.releaseCleanup && o.releaseName != "" && env.lookup.Found?
    ensures Follows(ReleasePhase(o, kube, env, v), [Lookup, DeleteVersions], env, v)
  {
    var ro := RetrieveOf(o);
    var intent := ReleaseWillBeDeleted(o.releaseName);
    var get := GetReleaseVersions(ro, kube);
    var del := DeleteReleaseVersions(ro, DeleteOptions(o.dryRun, VersionsOf(env.lookup.releases)), kube);
    var events := [intent, get, del];
    LookupThenDeleteCalls(intent, get, del);
    LookupThenDeleteExecuted(env, v);
    var s := ReleasePhase(o, kube, env, v);
    if Aborts(DeleteVersions, env, v) {
      assert s == Return(events, env.deleteVersions);
    } else {
      var done := Reported(o, ReleaseDeleted(o.releaseName));
      assert s == Continue(events + done);
      ReportedHasNoCalls(o, ReleaseDeleted(o.releaseName));
      CallsAppend(events, done);
    }
  }

  lemma ReleasePhaseFollows(o: CleanupOptions, kube: KubeConfig, env: Environment, v: Variant)
    ensures Follows(ReleasePhase(o, kube, env, v), ReleasePlan(o), env, v)
  {
    if o.releaseCleanup {
      if o.releaseName == "" {
        BulkReleaseFollows(o, kube, env, v);
      } else if env.lookup.Found? {
        NamedReleaseFound(o, kube, env, v);
      } else {
        NamedReleaseNotFound(o, kube, env, v);
      }
    }
  }

  lemma TillerPhaseFollows(o: CleanupOptions, env: Environment, v: Variant)
    ensures Follows(TillerPhase(o, env), TillerPlan(o), env, v)
  {
    if o.tillerCleanup && !o.tillerOutCluster {
      var intent := TillerWillBeRemoved(o.tillerNamespace);
      var call := RemoveTiller(o.tillerNamespace, o.dryRun);
      var done := Reported(o, TillerRemoved(o.tillerNamespace));
      CallsSingle(intent);
      CallsSingle(call);
      ReportedHasNoCalls(o, TillerRemoved(o.tillerNamespace));
      CallsPair(intent, call, done);
      CallsPair(intent, call, []);
      assert [intent, call] + [] == [intent, call];
      assert Executed([Tiller], env, v) ==
        if env.removeTiller.Error? then ([Tiller], env.removeTiller) else ([Tiller], Nil);
    }
  }

  lemma ConfigPhaseFollows(o: CleanupOptions, env: Environment, v: Variant)
    ensures Follows(ConfigPhase(o, env), ConfigPlan(o), env, v)
  {
    if o.configCleanup {
      CallsSingle(RemoveHomeFolder(o.dryRun));
      assert Executed([HomeFolder], env, v) ==
        if env.removeHomeFolder.Error? then ([HomeFolder], env.removeHomeFolder) else ([HomeFolder], Nil);
    }
  }

  lemma GateFollows(o: CleanupOptions, env: Environment, v: Variant)
    requires Proceeds(o, env)
    ensures Follows(Gate(o, env), [], env, v)
  {
    var first := if o.skipConfirmation then SkippingConfirmation else AskConfirmation(ConfirmTitle, ConfirmQuestion);
    CallsSingle(first);
    CallsSingle(WillCleanUp);
    CallsPair(first, WillCleanUp, []);
    assert [first, WillCleanUp] + [] == [first, WillCleanUp];
  }

  lemma AnnounceFollows(o: CleanupOptions, env: Environment, v: Variant)
    ensures Follows(Announce(o), [], env, v)
  {
    var warn := ShowWarning(WarningMessage(o));
    CallsSingle(DryRunNotice);
    CallsSingle(warn);
    CallsAppend(if o.dryRun then [DryRunNotice] else [], [warn]);
  }

  /**
   * Once the operator has agreed (or was not asked), a cleanup calls the
   * helpers of its plan (release, then Tiller unless it runs outside the
   * cluster, then the home folder), in that order, up to and including the
   * first call whose failure is checked, and returns that failure or nil.
   */
  lemma Sequencing(options: CleanupOptions, kube: KubeConfig, env: Environment, v: Variant)
    requires Resolve(options).Resolved? && Proceeds(Resolve(options).options, env)
    ensures RunFollows(CleanupRun(options, kube, env, v), Planned(Resolve(options).options), env, v)
  {
    var o := Resolve(options).options;
    var phases := Phases(o, kube, env, v);
    PhasesFollow(o, kube, env, v);
    GateFollows(o, env, v);
    ThenFollows(Gate(o, env), phases, [], Planned(o), env, v);
    assert [] + Planned(o) == Planned(o);
    AnnounceFollows(o, env, v);
    ThenFollows(Announce(o), Then(Gate(o, env), phases), [], Planned(o), env, v);
  }

  /** The three phases make the planned calls until the first abort. */
  lemma PhasesFollow(o: CleanupOptions, kube: KubeConfig, env: Environment, v: Variant)
    ensures RunFollows(Phases(o, kube, env, v), Planned(o), env, v)
  {
    var finish := Run(Nil, Reported(o, CleanedUp));
    ReportedHasNoCalls(o, CleanedUp);
    assert RunFollows(finish, [], env, v);
    ConfigPhaseFollows(o, env, v);
    ThenFollows(ConfigPhase(o, env), finish, ConfigPlan(o), [], env, v);
    assert ConfigPlan(o) + [] == ConfigPlan(o);
    TillerPhaseFollows(o, env, v);
    var r3 := Then(ConfigPhase(o, env), finish);
    ThenFollows(TillerPhase(o, env), r3, TillerPlan(o), ConfigPlan(o), env, v);
    ReleasePhaseFollows(o, kube, env, v);
    var r2 := Then(TillerPhase(o, env), r3);
    ThenFollows(ReleasePhase(o, kube, env, v), r2, ReleasePlan(o), TillerPlan(o) + ConfigPlan(o), env, v);
    assert ReleasePlan(o) + (TillerPlan(o) + ConfigPlan(o)) == Planned(o);
  }
}
