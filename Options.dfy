/**
 * The options of `helm 2to3 cleanup` and the rules that turn the flags an
 * operator typed into a consistent cleanup plan: a named release excludes
 * configuration and Tiller cleanup and implies release cleanup, and asking
 * for nothing means asking for everything.
 */
module Options {

  /** The `CleanupOptions` record: which categories to remove and how to reach them. */
  datatype CleanupOptions = CleanupOptions(
    configCleanup: bool,
    dryRun: bool,
    releaseName: string,
    releaseCleanup: bool,
    skipConfirmation: bool,
    storageType: string,
    tillerCleanup: bool,
    tillerLabel: string,
    tillerNamespace: string,
    tillerOutCluster: bool)

  /** The error returned when a named release is combined with another category. */
  const SingularOperationError: string :=
    "cleanup of a specific release is a singular operation. Other operations like configuration cleanup or Tiller cleanup are not allowed in conjunction with the operation"

  datatype Resolution = Resolved(options: CleanupOptions) | Rejected(message: string)

  /** A named release is being cleaned up together with configuration or Tiller. */
  predicate Conflicting(o: CleanupOptions) {
    o.releaseName != "" && (o.configCleanup || o.tillerCleanup)
  }

  /**
   * The plan invariant: a named release is cleaned up alone and as a release,
   * and at least one category is in scope.
   */
  predicate Normalized(o: CleanupOptions) {
    (o.releaseName != "" ==> o.releaseCleanup && !o.configCleanup && !o.tillerCleanup) &&
    (o.configCleanup || o.releaseCleanup || o.tillerCleanup)
  }

  /** Everything but the three category flags is the same in `a` and `b`. */
  predicate SameSettings(a: CleanupOptions, b: CleanupOptions) {
    a.dryRun == b.dryRun && a.releaseName == b.releaseName &&
    a.skipConfirmation == b.skipConfirmation && a.storageType == b.storageType &&
    a.tillerLabel == b.tillerLabel && a.tillerNamespace == b.tillerNamespace &&
    a.tillerOutCluster == b.tillerOutCluster
  }

  /** No category flag was given. */
  predicate NothingRequested(o: CleanupOptions) {
    !o.configCleanup && !o.releaseCleanup && !o.tillerCleanup
  }

  /** Validates the options and applies the named-release and default-everything rules. */
  function Resolve(o: CleanupOptions): (r: Resolution)
    ensures r.Rejected? <==> Conflicting(o)
    ensures r.Rejected? ==> r.message == SingularOperationError
    ensures r.Resolved? ==> Normalized(r.options) && SameSettings(o, r.options)
    // a named release forces release cleanup and keeps the (false) other flags
    ensures r.Resolved? && o.releaseName != "" ==>
      r.options.releaseCleanup && r.options.configCleanup == o.configCleanup &&
      r.options.tillerCleanup == o.tillerCleanup
    // asking for nothing without a name means asking for everything
    ensures r.Resolved? && o.releaseName == "" && NothingRequested(o) ==>
      r.options.configCleanup && r.options.releaseCleanup && r.options.tillerCleanup
    // otherwise the flags stay as given
    ensures r.Resolved? && o.releaseName == "" && !NothingRequested(o) ==> r.options == o
  {
    if o.releaseName != "" then
      if o.configCleanup || o.tillerCleanup then Rejected(SingularOperationError)
      else Resolved(o.(releaseCleanup := true))
    else if NothingRequested(o) then
      Resolved(o.(configCleanup := true, releaseCleanup := true, tillerCleanup := true))
    else Resolved(o)
  }

  /** A normalized plan is a fixed point of resolution. */
  lemma NormalizedIsFixedPoint(o: CleanupOptions)
    requires Normalized(o)
    ensures Resolve(o) == Resolved(o)
  {
    if o.releaseName != "" {
      assert o.releaseCleanup;
      assert o.(releaseCleanup := true) == o;
    }
  }

  /** Resolving twice is resolving once. */
  lemma ResolveIdempotent(o: CleanupOptions)
    requires Resolve(o).Resolved?
    ensures Resolve(Resolve(o).options) == Resolve(o)
  {
    NormalizedIsFixedPoint(Resolve(o).options);
  }
}
