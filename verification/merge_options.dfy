/**
 `MergeOptions` and `FastForwardStrategy`: the options of a merge, their
 translation into native checkout options, and the rules deciding between a
 fast-forward and a merge commit.
 */
module MergeOptions {
  import opened GitTypes
  import opened CheckoutFlags
  import opened Handlers
  import FileConflict

  /** How a merge may use a fast-forward. */
  datatype FastForwardStrategy =
    | Default          // fast-forward when possible, otherwise a merge commit
    | NoFastFoward     // never fast-forward; always a merge commit
    | FastForwardOnly  // only fast-forward

  /** The public state of a `MergeOptions` object. */
  datatype Options = Options(
    commitOnSuccess: bool,
    fastForwardStrategy: FastForwardStrategy,
    fileConflictStrategy: FileConflict.CheckoutFileConflictStrategy)

  /** `new MergeOptions()`: commit on success; every other member keeps its C# default. */
  function New(): (o: Options)
    ensures o.commitOnSuccess
    ensures o.fastForwardStrategy == Default
    ensures o.fileConflictStrategy == FileConflict.Default
  {
    Options(true, Default, FileConflict.Default)
  }

  /** The private `CheckoutConflictStrategyFlags` property. */
  function ConflictStrategyFlags(o: Options): (r: FlagSet)
    ensures r <= ConflictStyleFlags
    ensures |r| <= 1
    ensures FileConflict.StrategyOf(r) == o.fileConflictStrategy
    ensures r == FileConflict.ConflictFlags(o.fileConflictStrategy)
  {
    match o.fileConflictStrategy
    case Ours => {UseOurs}
    case Theirs => {UseTheirs}
    case Merge => {ConflictStyleMerge}
    case Diff3 => {ConflictStyleDiff3}
    case Default => {}
  }

  /** `IConvertableToGitCheckoutOpts.CheckoutStrategy`: safe-create and
      allow-conflicts, ORed with the conflict-strategy flags. */
  function CheckoutStrategy(o: Options): (r: FlagSet)
    ensures SafeCreate in r && AllowConflicts in r
    ensures r == BaseFlags + ConflictStrategyFlags(o)
    ensures forall f :: f in r ==> f in BaseFlags || f in ConflictStyleFlags
    ensures FileConflict.StrategyOf(r) == o.fileConflictStrategy
  {
    FileConflict.StrategyOfRoundTrip(o.fileConflictStrategy);
    WithBaseFlags(ConflictStrategyFlags(o))
  }

  /** `IConvertableToGitCheckoutOpts.CheckoutNotifyFlags`: no notification is requested. */
  function CheckoutNotifyFlags(o: Options): (r: set<NotifyFlag>)
    ensures forall f :: f !in r
  {
    {}
  }

  /** The notify flags do not depend on any member of the options. */
  lemma NotifyFlagsIndependent(a: Options, b: Options)
    ensures CheckoutNotifyFlags(a) == CheckoutNotifyFlags(b)
  {
  }

  /** `IConvertableToGitCheckoutOpts.GenerateCallbacks`: neither a progress nor
      a notify delegate is supplied. */
  function GenerateCallbacks(o: Options): (r: CheckoutCallbacks)
    ensures r.onProgress == None
    ensures r.onNotify == None
  {
    From(None, None)
  }

  /** The kind of merge a strategy selects. */
  datatype MergeKind =
    | FastForward     // the branch pointer moves; no merge commit
    | NonFastForward  // a merge commit is made: committed, staged, or left with conflicts
    | NotMerged       // neither is allowed

  /** The kind of merge `ff` selects when a fast-forward is, or is not, possible. */
  function Kind(ff: FastForwardStrategy, canFastForward: bool): (k: MergeKind)
    ensures k == FastForward <==> canFastForward && ff != NoFastFoward
    ensures k == NonFastForward <==> ff == NoFastFoward || (ff == Default && !canFastForward)
    ensures k == NotMerged <==> ff == FastForwardOnly && !canFastForward
  {
    match ff
    case Default => if canFastForward then FastForward else NonFastForward
    case NoFastFoward => NonFastForward
    case FastForwardOnly => if canFastForward then FastForward else NotMerged
  }

  /** Where a merge ends. */
  datatype MergeStatus =
    | FastForwarded                // the branch was moved; no commit was created
    | Committed(commit: CommitId)  // a clean merge was committed
    | Staged                       // a clean merge was left staged, nothing committed
    | ConflictsStaged              // conflicts left in the index, nothing committed
    | Rejected                     // the strategy allowed no merge at all

  /** The merge's terminal state, given whether a fast-forward is possible, what
      the checkout of a non-fast-forward merge left behind, and the commit the
      native engine would create. */
  function Merge(o: Options, canFastForward: bool, checkout: CheckoutResult, created: CommitId): (st: MergeStatus)
    ensures st.FastForwarded? <==> Kind(o.fastForwardStrategy, canFastForward) == FastForward
    ensures st.Rejected? <==> Kind(o.fastForwardStrategy, canFastForward) == NotMerged
    ensures st.Committed? <==>
      Kind(o.fastForwardStrategy, canFastForward) == NonFastForward && checkout == Clean && o.commitOnSuccess
    ensures st.Committed? ==> st.commit == created
    ensures st.ConflictsStaged? <==> Kind(o.fastForwardStrategy, canFastForward) == NonFastForward && checkout == Conflicted
  {
    match Kind(o.fastForwardStrategy, canFastForward)
    case FastForward => FastForwarded
    case NotMerged => Rejected
    case NonFastForward =>
      match checkout
      case Conflicted => ConflictsStaged
      case Clean => if o.commitOnSuccess then Committed(created) else Staged
  }

  /** Whether the merge ended as a non-fast-forward merge: committed, left
      staged, or left with conflicts in the index. */
  predicate IsNonFastForwardOutcome(st: MergeStatus)
  {
    st.Committed? || st.Staged? || st.ConflictsStaged?
  }

  /** `Default` fast-forwards when it can and otherwise performs a non-fast-forward merge. */
  lemma DefaultFastForwardsWhenPossible(o: Options, canFastForward: bool, checkout: CheckoutResult, created: CommitId)
    requires o.fastForwardStrategy == Default
    ensures canFastForward ==> Merge(o, canFastForward, checkout, created) == FastForwarded
    ensures !canFastForward ==> IsNonFastForwardOutcome(Merge(o, canFastForward, checkout, created))
  {
  }

  /** `NoFastFoward` always performs a non-fast-forward merge, even when a
      fast-forward is possible. */
  lemma NoFastForwardAlwaysMerges(o: Options, canFastForward: bool, checkout: CheckoutResult, created: CommitId)
    requires o.fastForwardStrategy == NoFastFoward
    ensures IsNonFastForwardOutcome(Merge(o, canFastForward, checkout, created))
    ensures checkout == Clean && o.commitOnSuccess ==> Merge(o, canFastForward, checkout, created) == Committed(created)
  {
  }

  /** `FastForwardOnly` never performs a non-fast-forward merge. */
  lemma FastForwardOnlyNeverMerges(o: Options, canFastForward: bool, checkout: CheckoutResult, created: CommitId)
    requires o.fastForwardStrategy == FastForwardOnly
    ensures !IsNonFastForwardOutcome(Merge(o, canFastForward, checkout, created))
    ensures Merge(o, canFastForward, checkout, created) == (if canFastForward then FastForwarded else Rejected)
  {
  }

  /** `CommitOnSuccess` does not affect a fast-forward, which never creates a commit. */
  lemma CommitOnSuccessIrrelevantToFastForward(o: Options, canFastForward: bool, checkout: CheckoutResult, created: CommitId, commit: bool)
    requires Kind(o.fastForwardStrategy, canFastForward) == FastForward
    ensures Merge(o, canFastForward, checkout, created) == FastForwarded
    ensures Merge(o.(commitOnSuccess := commit), canFastForward, checkout, created) == FastForwarded
  {
  }

  /** A new `MergeOptions` fast-forwards when possible, and otherwise commits a
      clean merge. */
  lemma MergeDefaults(canFastForward: bool, created: CommitId)
    ensures Merge(New(), canFastForward, Clean, created) == (if canFastForward then FastForwarded else Committed(created))
  {
  }
}
