/**
 * The boundary of the cleanup command: the calls it makes into the Helm v2
 * helpers (release storage, Tiller, the home folder) and into the prompt,
 * the results those calls return, and the trace of calls and log lines a
 * cleanup leaves behind.
 */
module Collaborators {

  /** Go's `int32`, the type of a release version. */
  newtype int32 = x: int | -0x8000_0000 <= x < 0x8000_0000

  /** Go's `error`: nil, or an error carrying its message. */
  datatype Status = Nil | Error(message: string)

  /** The cluster connection settings, handed unchanged to the release-storage helpers. */
  datatype KubeConfig = KubeConfig(context: string, file: string)

  /** Where the Helm v2 release records live and which release to look at. */
  datatype RetrieveOptions = RetrieveOptions(
    releaseName: string,
    tillerNamespace: string,
    tillerLabel: string,
    tillerOutCluster: bool,
    storageType: string)

  /** What `DeleteReleaseVersions` removes. */
  datatype DeleteOptions = DeleteOptions(dryRun: bool, versions: seq<int32>)

  /** A stored Helm v2 release record; only its version matters to the cleanup. */
  datatype V2Release = V2Release(version: int32)

  /** The operator's reply to the confirmation prompt, or the prompt's failure. */
  datatype Answer = Yes | No | PromptError(message: string)

  /** What `GetReleaseVersions` returns: the release records found, or its error. */
  datatype LookupResult = Found(releases: seq<V2Release>) | LookupError(message: string)

  /**
   * The outside world as the cleanup sees it: the prompt's answer and the
   * result of each helper. A cleanup calls each helper at most once, so one
   * result per helper describes any run.
   */
  datatype Environment = Environment(
    answer: Answer,
    deleteAll: Status,
    lookup: LookupResult,
    deleteVersions: Status,
    removeTiller: Status,
    removeHomeFolder: Status)

  /** One entry of a cleanup's trace: a log line, the prompt, or a helper call. */
  datatype Event =
    | DryRunNotice                              // the dry-run banner
    | ShowWarning(text: string)                 // the warning on standard output
    | SkippingConfirmation
    | AskConfirmation(title: string, question: string)
    | NotProceeding                             // the operator did not answer y or Y
    | WillCleanUp                               // "Helm v2 data will be cleaned up."
    | ReleaseWillBeDeleted(name: string)        // name "" stands for all releases
    | DeleteAllReleaseVersions(retrieve: RetrieveOptions, kube: KubeConfig, dryRun: bool)
    | GetReleaseVersions(retrieve: RetrieveOptions, kube: KubeConfig)
    | DeleteReleaseVersions(retrieve: RetrieveOptions, delete: DeleteOptions, kube: KubeConfig)
    | ReleaseDeleted(name: string)              // name "" stands for all releases
    | TillerWillBeRemoved(namespace: string)
    | RemoveTiller(namespace: string, dryRun: bool)
    | TillerRemoved(namespace: string)
    | RemoveHomeFolder(dryRun: bool)
    | CleanedUp                                 // "Helm v2 data was cleaned up successfully."

  /** The prompt's title and question. */
  const ConfirmTitle: string := "Cleanup"
  const ConfirmQuestion: string := "cleanup Helm v2 data"

  /** A call into a Helm v2 helper. */
  predicate IsHelperCall(e: Event) {
    e.DeleteAllReleaseVersions? || e.GetReleaseVersions? || e.DeleteReleaseVersions? ||
    e.RemoveTiller? || e.RemoveHomeFolder?
  }

  /** A helper call that changes the cluster or the file system unless it is a dry run. */
  predicate IsMutation(e: Event) {
    e.DeleteAllReleaseVersions? || e.DeleteReleaseVersions? || e.RemoveTiller? || e.RemoveHomeFolder?
  }

  /** The dry-run flag a mutating call was given. */
  function DryRunOf(e: Event): bool
    requires IsMutation(e)
  {
    match e
    case DeleteAllReleaseVersions(_, _, d) => d
    case DeleteReleaseVersions(_, del, _) => del.dryRun
    case RemoveTiller(_, d) => d
    case RemoveHomeFolder(d) => d
  }

  /** A log line that reports something as done. */
  predicate IsDoneReport(e: Event) {
    e.ReleaseDeleted? || e.TillerRemoved? || e.CleanedUp?
  }

  /** The helpers, by kind. */
  datatype Helper = DeleteAll | Lookup | DeleteVersions | Tiller | HomeFolder

  function HelperOf(e: Event): Helper
    requires IsHelperCall(e)
  {
    match e
    case DeleteAllReleaseVersions(_, _, _) => DeleteAll
    case GetReleaseVersions(_, _) => Lookup
    case DeleteReleaseVersions(_, _, _) => DeleteVersions
    case RemoveTiller(_, _) => Tiller
    case RemoveHomeFolder(_) => HomeFolder
  }

  /** The helper calls of a trace, in order, by kind. */
  function Calls(trace: seq<Event>): seq<Helper> {
    if trace == [] then []
    else (if IsHelperCall(trace[0]) then [HelperOf(trace[0])] else []) + Calls(trace[1..])
  }

  lemma {:induction false} CallsAppend(a: seq<Event>, b: seq<Event>)
    ensures Calls(a + b) == Calls(a) + Calls(b)
  {
    if a == [] {
      assert a + b == b;
    } else {
      var head := if IsHelperCall(a[0]) then [HelperOf(a[0])] else [];
      assert (a + b)[0] == a[0];
      assert (a + b)[1..] == a[1..] + b;
      assert Calls(a + b) == head + Calls(a[1..] + b);
      CallsAppend(a[1..], b);
      assert Calls(a) == head + Calls(a[1..]);
    }
  }

  lemma CallsSingle(e: Event)
    ensures Calls([e]) == if IsHelperCall(e) then [HelperOf(e)] else []
  {
    assert [e][1..] == [];
  }

  /** The calls of `[a, b] + rest`, one event at a time. */
  lemma CallsPair(a: Event, b: Event, rest: seq<Event>)
    ensures Calls([a, b] + rest) == Calls([a]) + Calls([b]) + Calls(rest)
  {
    assert [a, b] + rest == [a] + ([b] + rest);
    CallsAppend([a], [b] + rest);
    CallsAppend([b], rest);
  }

  /** What the environment returns for a call of helper `h`. */
  function ResultOf(h: Helper, env: Environment): Status {
    match h
    case DeleteAll => env.deleteAll
    case Lookup => if env.lookup.Found? then Nil else Error(env.lookup.message)
    case DeleteVersions => env.deleteVersions
    case Tiller => env.removeTiller
    case HomeFolder => env.removeHomeFolder
  }

  /** The versions of a list of release records, in the same order. */
  function VersionsOf(releases: seq<V2Release>): (versions: seq<int32>)
    ensures |versions| == |releases|
    ensures forall i | 0 <= i < |releases| :: versions[i] == releases[i].version
  {
    if releases == [] then []
    else [releases[0].version] + VersionsOf(releases[1..])
  }
}
