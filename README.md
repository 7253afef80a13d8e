# helm-2to3 `cleanup`, modelled in Dafny

`helm 2to3 cleanup` removes what Helm v2 left behind once releases have been
migrated to Helm v3. It can remove three kinds of data:

- the Helm v2 release records (all of them, or every version of one named release);
- the Tiller deployment;
- the local Helm v2 home folder.

This project models the function `Cleanup` of `cmd/cleanup.go`. It covers:

- the validation and normalisation of `CleanupOptions`;
- the warning text built from the options;
- the confirmation gate;
- the three phases, each of which returns at the first checked error;
- the loop that collects the versions of a named release.

The Helm v2 helpers and the prompt are an oracle. `Environment` holds the
prompt's answer and one result per helper. A run leaves a trace of events:
log lines, the prompt, and helper calls with their arguments.

Modules:

- `Options` (`Options.dfy`): the options record and `Resolve`, which validates and normalises it.
- `Warning` (`Warning.dfy`): the warning text as a function, the builder method that assembles it piece by piece, and a decoder that reads a warning back into what it announces.
- `Collaborators` (`Collaborators.dfy`): helper results, trace events, and the helper calls of a trace.
- `Sequencer` (`Sequencer.dfy`): `CleanupRun`, the whole cleanup as a pure function from options, cluster connection and environment to a status and a trace. It also holds a reference semantics (`Planned`/`Executed`: the calls a plan asks for, made in order until the first abort) and the proof that `CleanupRun` follows it.
- `Cleanup` (`Cleanup.dfy`): the command as imperative code. Each method is proved equal to its part of `CleanupRun`.
- `Properties` (`Properties.dfy`): what a cleanup promises, proved about `CleanupRun`.

`Variant` separates the code as written from a corrected version (see
Findings). The general lemmas hold for both.

Behaviour of the code worth noting:

- Tiller is removed by namespace only. No label selector is passed to `RemoveTiller` (cmd/cleanup.go:213).
- The "cannot restore" note appears only for bulk release cleanup (cmd/cleanup.go:138-140), never for a named release.
- The versions of a named release are passed as an ordered list, in the order the records were found, duplicates kept (cmd/cleanup.go:187-197).
- A failed deletion of a named release's versions does not abort the cleanup (see Findings).
- A dry run prints its notice before the warning (cmd/cleanup.go:117-121). It prints nothing at the end.

## Model

| member | source | states |
|---|---|---|
| Options.Resolve | cmd/cleanup.go:104-115 | A named release combined with config or Tiller cleanup is rejected with the exact singular-operation message, and only then. A resolved plan keeps every non-category setting. A name forces release cleanup. With no name and no category requested, all three categories are set. Otherwise the flags stay as given. The result is always a normalised plan. |
| Options.NormalizedIsFixedPoint | cmd/cleanup.go:104-115 | A plan that is already normalised resolves to itself. |
| Options.ResolveIdempotent | cmd/cleanup.go:104-115 | Resolving a resolved plan changes nothing. |
| Warning.BuildWarning | cmd/cleanup.go:123-143 | The text appended piece by piece to the builder equals `WarningMessage` of the options. |
| Warning.DecodeWarning | cmd/cleanup.go:123-143 | Reading the warning back gives exactly what the plan does: each enabled category in the order configuration, release (bulk, or the named release), Tiller; the no-restore note exactly for bulk release cleanup; the unusable note exactly when no release is named. |
| Warning.WarningFrame | cmd/cleanup.go:123-143 | Every warning starts with "WARNING: ". It ends with the "may not be usable" line if and only if no release is named. |
| Warning.WarningDeterminesAnnouncement | cmd/cleanup.go:123-143 | Two plans with the same warning text announce the same categories, scope and notes. |
| Collaborators.VersionsOf | cmd/cleanup.go:187-192 | The version list has one entry per release record, and entry i is the version of record i. |
| Cleanup.CollectVersions | cmd/cleanup.go:187-192 | The loop's result has one entry per record, and entry i is record i's version. |
| Cleanup.Cleanup | cmd/cleanup.go:101-233 | The imperative command returns exactly the status and trace of `CleanupRun` for the code as written. |
| Cleanup.CleanupResolved | cmd/cleanup.go:117-232 | For resolved options, the dry-run notice, the built warning, the gate and the phases give `Then(Announce(o), Then(Gate(o, env), Phases(o, kubeConfig, env, AsWritten)))`. |
| Cleanup.Confirm | cmd/cleanup.go:147-164 | Skipping, a yes, a no and a prompt error give the step `Gate(o, env)`. The cleanup goes on only after a skip or a yes. A prompt error returns that error. A no returns nil. |
| Cleanup.RunPhases | cmd/cleanup.go:166-232 | The release, Tiller and config phases and the success line give `Phases`, each phase returning at its first checked error. |
| Cleanup.DeleteReleases | cmd/cleanup.go:166-209 | The release phase as written, including the shadowed `err` of the named-release branch, gives `ReleasePhase` for the code as written. |
| Cleanup.DeleteReleasesCorrected | cmd/cleanup.go:181-201 | With the lookup's results assigned to the outer `err`, the release phase gives `ReleasePhase` for the corrected code. |
| Cleanup.RemoveTillerPhase | cmd/cleanup.go:211-220 | The Tiller phase gives `TillerPhase`. It is skipped when Tiller runs outside the cluster. |
| Cleanup.RemoveConfigPhase | cmd/cleanup.go:222-227 | The config phase gives `ConfigPhase`. |
| Warning.WarningMessage | cmd/cleanup.go:123-143 | The warning text: "WARNING: ", the enabled categories, the removal line, then the notes. Its promises are stated by `Warning.DecodeWarning`, `Warning.WarningFrame` and `Warning.WarningDeterminesAnnouncement`, and `Warning.BuildWarning` is proved to build it. |
| Sequencer.Announce | cmd/cleanup.go:117-145 | The dry-run banner when in dry-run mode, then the warning; it never returns. `Sequencer.AnnounceFollows` shows it calls no helper, and `Properties.ConflictRejectedFirst` that every accepted run shows the warning. |
| Sequencer.Gate | cmd/cleanup.go:147-164 | The confirmation step: skip, yes, no or prompt error. `Sequencer.GateFollows`, `Properties.DeclineStopsCleanly`, `Properties.PromptErrorStops` and `Properties.SkipNeverPrompts` state its promises; `Cleanup.Confirm` is proved to take this step. |
| Sequencer.ReleasePhase | cmd/cleanup.go:166-209 | The release phase, as written or corrected. `Sequencer.ReleasePhaseFollows`, `Properties.NamedLookupFails`, `Properties.NamedVersionsDeleted`, `Properties.NamedDeleteErrorIgnored` and `Properties.NamedDeleteErrorReturned` state its promises; `Cleanup.DeleteReleases` and `Cleanup.DeleteReleasesCorrected` are proved to take this step. |
| Sequencer.TillerPhase | cmd/cleanup.go:211-220 | The Tiller phase. `Sequencer.TillerPhaseFollows` and `Properties.TillerAnnouncedButSkipped` state its promises; `Cleanup.RemoveTillerPhase` is proved to take this step. |
| Sequencer.ConfigPhase | cmd/cleanup.go:222-227 | The configuration phase. `Sequencer.ConfigPhaseFollows` states its promise; `Cleanup.RemoveConfigPhase` is proved to take this step. |
| Sequencer.Phases | cmd/cleanup.go:166-232 | The three phases in order, each returning at its error, then the success line. `Sequencer.PhasesFollow` and `Properties.SuccessReported` state its promises; `Cleanup.RunPhases` is proved to compute it. |
| Sequencer.CleanupRun | cmd/cleanup.go:101-233 | The whole cleanup: rejection, or announcement, gate and phases. `Sequencer.Sequencing` and the `Properties` lemmas state its promises; `Cleanup.Cleanup` is proved to compute it. |
| Sequencer.ExecutedStopsAtFirstAbort | cmd/cleanup.go:166-232 | The calls made are a prefix of the plan. No call before the last one aborts. The status is an error if and only if some planned call aborts; it is then the last call's error. When the status is nil, the whole plan was executed. |
| Sequencer.ExecutedAppend | cmd/cleanup.go:166-232 | Executing two plans in sequence is executing the first, then the second unless the first aborted. |
| Sequencer.Sequencing | cmd/cleanup.go:147-232 | Once the operator has agreed, a cleanup calls the helpers of its plan in order (release, Tiller unless it runs out of cluster, home folder) up to the first failure that is checked, and returns that failure or nil. |
| Sequencer.PhasesFollow | cmd/cleanup.go:166-232 | The three phases and the success line make the planned calls until the first abort. |
| Sequencer.ReleasePhaseFollows | cmd/cleanup.go:166-209 | The release phase calls `DeleteAllReleaseVersions`, or `GetReleaseVersions` then `DeleteReleaseVersions`, and stops at the first call that aborts. |
| Sequencer.TillerPhaseFollows | cmd/cleanup.go:211-220 | The Tiller phase calls `RemoveTiller` only when Tiller is in the cluster and its cleanup was requested, and returns its error. |
| Sequencer.ConfigPhaseFollows | cmd/cleanup.go:222-227 | The config phase calls `RemoveHomeFolder` only when config cleanup was requested, and returns its error. |
| Sequencer.GateFollows | cmd/cleanup.go:147-164 | A gate that lets the cleanup proceed calls no helper. |
| Properties.ConflictRejectedFirst | cmd/cleanup.go:104-107 | Conflicting options return the singular-operation error with an empty trace: nothing printed, asked or called. Any other options at least print the warning. |
| Properties.DeclineStopsCleanly | cmd/cleanup.go:154-162 | A declined prompt returns nil, calls no helper, and ends with the prompt followed by the not-proceeding line. |
| Properties.PromptErrorStops | cmd/cleanup.go:154-158 | A failing prompt returns its error right after the prompt and calls no helper. |
| Properties.SkipNeverPrompts | cmd/cleanup.go:149-153 | With confirmation skipped, the trace holds no prompt, and it does hold the skip line and the will-clean-up line. |
| Properties.RunEvents | cmd/cleanup.go:117-232 | Every event of a resolved cleanup is an announcement or gate line, or a phase event that carries the right arguments. |
| Properties.CallArguments | cmd/cleanup.go:172-223 | Every release-storage call (`DeleteAllReleaseVersions`, `GetReleaseVersions`, `DeleteReleaseVersions`) carries the retrieve options built from the cleanup options, and the cluster connection. `DeleteReleaseVersions` gets the versions the lookup returned. `RemoveTiller` gets only the namespace and the dry-run flag. `RemoveHomeFolder` gets only the dry-run flag. Every mutating call gets the dry-run flag. |
| Properties.DryRunThreaded | cmd/cleanup.go:180-231 | Every mutating call gets the dry-run flag unchanged. A dry run reports nothing as deleted, removed or cleaned up. |
| Properties.ErrorEndsAtFailedCall | cmd/cleanup.go:184-226 | Once the operator has agreed, an error is returned right after the failing helper call, and it is that call's result. |
| Properties.SuccessReported | cmd/cleanup.go:229-232 | Once the operator has agreed, the last line is the success line if and only if the cleanup returned nil outside a dry run. |
| Properties.CallsFollowPlan | cmd/cleanup.go:147-232 | The helper calls are always a prefix of the plan. Once the operator has agreed, no call before the last one aborts; an error is the last call's result; nil means the whole plan ran. |
| Properties.TillerAnnouncedButSkipped | cmd/cleanup.go:211-213 | With Tiller out of cluster, the warning still announces Tiller (cmd/cleanup.go:134-136), but `RemoveTiller` is never called. |
| Properties.NamedLookupFails | cmd/cleanup.go:183-186 | For a named release whose lookup fails, the lookup's error is returned and the lookup is the only helper called. |
| Properties.NamedVersionsDeleted | cmd/cleanup.go:183-197 | For a named release whose lookup succeeds, the lookup is called, and `DeleteReleaseVersions` is given exactly the versions found, in order, with the dry-run flag. |
| Properties.NamedDeleteErrorIgnored | cmd/cleanup.go:183-232 | As written, a failed `DeleteReleaseVersions` still returns nil. Outside a dry run it is reported as deleted and the run ends with the success line. |
| Properties.NamedDeleteErrorReturned | cmd/cleanup.go:197-201 | Corrected, the deletion error is returned right after the failing call, and nothing is reported as done. |
| Properties.IgnoredDeletionExample | cmd/cleanup.go:183-201 | For release `app1` with versions 1, 2 and 3 and a failing deletion, the code as written returns nil and the corrected code returns the failure. |

## Left out

- The cobra command, its flags and `runCleanup` (cmd/cleanup.go:33-96). These are command-line plumbing that copy settings into `CleanupOptions`.
- The internals of `utils.AskConfirmation` and of the `v2` helpers. They do terminal, Kubernetes and file-system I/O. Their answers and results are inputs (`Environment`), one per helper, since a cleanup calls each helper at most once.
- The contents of `common.KubeConfig`. It is an opaque value passed unchanged to the release-storage helpers.
- The wording of log lines. Each log line is one trace event. The three dry-run banner lines are one event. The logs' writer and their ordering with standard output are not modelled.
- The warning is recorded as the text built, not as bytes on standard output. The newline that `fmt.Println` adds is not part of it.
- Cleanup.Cleanup: the body of `Cleanup` is one function in the source. Here it is split into methods along its blocks: `Confirm`, `DeleteReleases`, `RemoveTillerPhase`, `RemoveConfigPhase`, `RunPhases` and `CleanupResolved`. Each early `return` of the source becomes a return of the enclosing method, and `Confirm` reports whether to go on.
- Warning.WarningFrame: "contains the note" is stated as "ends with the note", and as a decoding round trip (`Warning.DecodeWarning`). This is because a release name can itself contain the text of a note.

## Findings

| source | as written | input that shows it | evidently intended | confidence | as-written member | corrected member |
|---|---|---|---|---|---|---|
| cmd/cleanup.go:183-201 | `v2Releases, err :=` declares a new `err` inside the named-release branch. The result of `DeleteReleaseVersions` is assigned to that inner variable, and the check after the branch reads the outer `err`, which is nil. | Release `app1`; the lookup finds versions 1, 2 and 3; `DeleteReleaseVersions` fails. `Cleanup` returns nil, logs the release as deleted and logs success. | The deletion error is returned, like every other helper failure. | not executed | Properties.NamedDeleteErrorIgnored | Properties.NamedDeleteErrorReturned |
