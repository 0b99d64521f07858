/**
 `RevertOptions`: the options of a revert, their translation into native
 checkout options, and the rule deciding whether the revert is committed.
 */
module RevertOptions {
  import opened GitTypes
  import opened CheckoutFlags
  import opened Handlers
  import FileConflict

  /** The public state of a `RevertOptions` object. */
  datatype Options = Options(
    onCheckoutProgress: Option<ProgressHandler>,
    commitOnSuccess: bool,
    mainline: int32,  // index of the parent to diff against; not read by the options themselves
    fileConflictStrategy: FileConflict.CheckoutFileConflictStrategy)

  /** `new RevertOptions()`: commit on success; every other member keeps its C# default. */
  function New(): (o: Options)
    ensures o.commitOnSuccess
    ensures o.fileConflictStrategy == FileConflict.Default
    ensures o.mainline == 0
    ensures o.onCheckoutProgress == None
  {
    Options(None, true, 0, FileConflict.Default)
  }

  /** The private `CheckoutConflictStrategyFlags` property. */
  function ConflictStrategyFlags(o: Options): (r: FlagSet)
    ensures r <= ConflictStyleFlags
    ensures |r| <= 1
    ensures FileConflict.StrategyOf(r) == o.fileConflictStrategy
    ensures r == FileConflict.ConflictFlags(o.fileConflictStrategy)
  {
    match o.fileConflictStrategy
    case Ours => {UseOurs}
    case Theirs => {UseTheirs}
    case Merge => {ConflictStyleMerge}
    case Diff3 => {ConflictStyleDiff3}
    case Default => {}
  }

  /** `IConvertableToGitCheckoutOpts.CheckoutStrategy`: safe-create and
      allow-conflicts, ORed with the conflict-strategy flags. */
  function CheckoutStrategy(o: Options): (r: FlagSet)
    ensures SafeCreate in r && AllowConflicts in r
    ensures r == BaseFlags + ConflictStrategyFlags(o)
    ensures forall f :: f in r ==> f in BaseFlags || f in ConflictStyleFlags
    ensures FileConflict.StrategyOf(r) == o.fileConflictStrategy
  {
    FileConflict.StrategyOfRoundTrip(o.fileConflictStrategy);
    WithBaseFlags(ConflictStrategyFlags(o))
  }

  /** `IConvertableToGitCheckoutOpts.CheckoutNotifyFlags`: no notification is requested. */
  function CheckoutNotifyFlags(o: Options): (r: set<NotifyFlag>)
    ensures forall f :: f !in r
  {
    {}
  }

  /** The notify flags do not depend on any member of the options. */
  lemma NotifyFlagsIndependent(a: Options, b: Options)
    ensures CheckoutNotifyFlags(a) == CheckoutNotifyFlags(b)
  {
  }

  /** `IConvertableToGitCheckoutOpts.GenerateCallbacks`: the progress delegate
      is passed through and no notify delegate is supplied. */
  function GenerateCallbacks(o: Options): (r: CheckoutCallbacks)
    ensures r.onProgress == o.onCheckoutProgress
    ensures r.onNotify == None
  {
    From(o.onCheckoutProgress, None)
  }

  /** Where a revert ends once the native checkout has run. */
  datatype RevertStatus =
    | Committed(commit: CommitId)  // clean, and the revert was committed
    | Staged                       // clean, changes left staged, nothing committed
    | ConflictsStaged              // conflicts left in the index, nothing committed

  /** The revert's terminal state, given what the checkout left behind and the
      commit the native engine would create. */
  function Revert(o: Options, checkout: CheckoutResult, created: CommitId): (st: RevertStatus)
    ensures st.Committed? <==> checkout == Clean && o.commitOnSuccess
    ensures st.Committed? ==> st.commit == created
    ensures st.ConflictsStaged? <==> checkout == Conflicted
  {
    match checkout
    case Conflicted => ConflictsStaged
    case Clean => if o.commitOnSuccess then Committed(created) else Staged
  }

  /** What `Repository.Revert` returns: the new commit, or null. */
  function Result(st: RevertStatus): Option<CommitId>
  {
    if st.Committed? then Some(st.commit) else None
  }

  /** Whether the index is free of conflicts after the revert. */
  predicate IndexFullyMerged(st: RevertStatus)
  {
    !st.ConflictsStaged?
  }

  /** A commit is returned exactly when the revert is clean and `CommitOnSuccess` is set;
      otherwise the result is null. */
  lemma RevertCommitRule(o: Options, checkout: CheckoutResult, created: CommitId)
    ensures Result(Revert(o, checkout, created)) == (if checkout == Clean && o.commitOnSuccess then Some(created) else None)
    ensures !o.commitOnSuccess ==> Result(Revert(o, checkout, created)) == None
    ensures checkout == Conflicted ==> Result(Revert(o, checkout, created)) == None
  {
  }

  /** The three outcomes the revert tests observe: default options on a clean
      revert commit and leave a fully merged index; `CommitOnSuccess = false`
      leaves the changes staged; a conflicting revert returns null with
      conflicts in the index. */
  lemma RevertFixtureOutcomes(created: CommitId)
    ensures Result(Revert(New(), Clean, created)) == Some(created)
    ensures IndexFullyMerged(Revert(New(), Clean, created))
    ensures Revert(New().(commitOnSuccess := false), Clean, created) == Staged
    ensures Result(Revert(New().(commitOnSuccess := false), Clean, created)) == None
    ensures Result(Revert(New(), Conflicted, created)) == None
    ensures !IndexFullyMerged(Revert(New(), Conflicted, created))
  {
  }
}
