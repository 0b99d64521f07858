# LibGit2Sharp revert and merge options, in Dafny

This project models the option objects that LibGit2Sharp turns into native
libgit2 checkout settings for a revert or a merge, and the outcome rules that
those options' documentation promises:

- `CheckoutFileConflictStrategy` (`Default`, `Ours`, `Theirs`, `Merge`, `Diff3`) and
  its translation into one checkout flag (`FileConflict`).
- The native `CheckoutStrategy` as a set of named flags. C#'s bitwise `|` on flag
  values is set union, written as a left fold `Or` (`CheckoutFlags`).
- `RevertOptions` and `MergeOptions` as immutable records. Each has a constructor
  function `New` and the three members of `IConvertableToGitCheckoutOpts`:
  `CheckoutStrategy`, `CheckoutNotifyFlags` and `GenerateCallbacks`.
- The revert outcome: a commit is created and returned only when the checkout is
  clean and `CommitOnSuccess` is set. Otherwise the result is null.
- The merge outcome under each `FastForwardStrategy`: a fast-forward, a non-fast-forward
  merge, or nothing. `CommitOnSuccess` only affects a non-fast-forward merge.

The native engine is an input. Whether the revert or merge checkout left
conflicts, whether a fast-forward is possible, and the id of the commit the
engine would create are all parameters.

The `switch` in `CheckoutConflictStrategyFlags` is modelled twice:

- `FileConflict.ConflictFlags` gives it as a table.
- `FileConflict.SwitchConflictFlags` executes it as written. The flags start at
  `default(CheckoutStrategy)`, the case labels are tried in order, and a strategy
  with no case keeps the default.

Both classes contain their own copy of the switch. Each class's `ConflictStrategyFlags`
transcribes its copy and is proved equal to the table. `OptionsAgreement` states
that the two classes agree.

## Model

| member | source | states |
|---|---|---|
| CheckoutFlags.Or | LibGit2Sharp/RevertOptions.cs:51-53 | An OR of any number of flag values contains every operand. Every flag in it comes from some operand. |
| CheckoutFlags.OrOfThree | LibGit2Sharp/MergeOptions.cs:49-51 | The OR of three operands is exactly the union of its operands. |
| CheckoutFlags.WithBaseFlags | LibGit2Sharp/RevertOptions.cs:47-55 | The OR of SAFE_CREATE, ALLOW_CONFLICTS and `extra` always raises both base flags and is exactly the base flags plus `extra`. |
| FileConflict.ConflictFlags | LibGit2Sharp/RevertOptions.cs:67-90 | The conflict translation raises only conflict-style flags, and never a base flag. It raises none exactly for `Default` and exactly one for every other strategy. |
| FileConflict.SwitchConflictFlags | LibGit2Sharp/RevertOptions.cs:71-89 | Running the switch, with flags starting at the default and cases tried in order, gives the translation table's flags for every strategy: Ours to USE_OURS, Theirs to USE_THEIRS, Merge to CONFLICT_STYLE_MERGE, Diff3 to CONFLICT_STYLE_DIFF3, Default to none. |
| FileConflict.SwitchCasesMatchTable | LibGit2Sharp/RevertOptions.cs:73-86 | Each case label of the switch assigns the single flag the table gives its strategy. |
| FileConflict.StrategyOfRoundTrip | LibGit2Sharp/CheckoutFileConflictStrategy.cs:12-40 | The file-conflict strategy can be read back from the full checkout strategy it is ORed into. |
| FileConflict.ConflictFlagsInjective | LibGit2Sharp/MergeOptions.cs:71-85 | Two strategies raise the same conflict flags if and only if they are the same strategy. |
| Handlers.From | LibGit2Sharp/RevertOptions.cs:44 | Computes the callbacks `CheckoutCallbacks.From(progress, notify)` hands to the native checkout: the given progress and notify delegates, each present or absent. |
| RevertOptions.New | LibGit2Sharp/RevertOptions.cs:11-38 | A new `RevertOptions` commits on success, uses the `Default` conflict strategy, has `Mainline` 0 and has no progress delegate. |
| RevertOptions.ConflictStrategyFlags | LibGit2Sharp/RevertOptions.cs:64-91 | The revert's conflict flags raise at most one conflict-style flag, and that flag identifies the configured strategy. |
| RevertOptions.CheckoutStrategy | LibGit2Sharp/RevertOptions.cs:47-55 | The revert checkout strategy always holds SAFE_CREATE and ALLOW_CONFLICTS. It equals those two plus the conflict flags, holds no other flag, and identifies the configured conflict strategy. |
| RevertOptions.CheckoutNotifyFlags | LibGit2Sharp/RevertOptions.cs:57-60 | A revert requests no checkout notifications (`CheckoutNotifyFlags.None`). |
| RevertOptions.NotifyFlagsIndependent | LibGit2Sharp/RevertOptions.cs:57-60 | The revert's notify flags are the same whatever the option values. |
| RevertOptions.GenerateCallbacks | LibGit2Sharp/RevertOptions.cs:42-45 | The revert's callbacks pass the progress delegate through unchanged and never supply a notify delegate. |
| RevertOptions.Revert | LibGit2Sharp/RevertOptions.cs:25-28 | A revert is committed, with the engine's new commit, if and only if the checkout is clean and `CommitOnSuccess` holds. Conflicts stay staged if and only if the checkout conflicted. |
| RevertOptions.Result | LibGit2Sharp.Tests/RevertFixture.cs:27-30 | Computes what `Repository.Revert` returns: the created commit for a committed revert, and null for a staged or conflicted one. |
| RevertOptions.IndexFullyMerged | LibGit2Sharp.Tests/RevertFixture.cs:119-120 | Computes `repo.Index.IsFullyMerged` after a revert: true unless the revert left conflicts in the index. |
| RevertOptions.RevertCommitRule | LibGit2Sharp/RevertOptions.cs:11-28 | The returned value is the new commit when the revert is clean and `CommitOnSuccess` holds, and null otherwise. In particular it is null whenever `CommitOnSuccess` is false or the revert conflicts. |
| RevertOptions.RevertFixtureOutcomes | LibGit2Sharp.Tests/RevertFixture.cs:27-120 | With default options a clean revert returns its commit and leaves a fully merged index. With `CommitOnSuccess = false` it returns null and leaves the changes staged. A conflicting revert returns null and leaves the index not fully merged. |
| MergeOptions.New | LibGit2Sharp/MergeOptions.cs:11-36 | A new `MergeOptions` commits on success and uses the `Default` fast-forward and conflict strategies. |
| MergeOptions.ConflictStrategyFlags | LibGit2Sharp/MergeOptions.cs:62-89 | The merge's conflict flags raise at most one conflict-style flag, and that flag identifies the configured strategy. |
| MergeOptions.CheckoutStrategy | LibGit2Sharp/MergeOptions.cs:45-53 | The merge checkout strategy always holds SAFE_CREATE and ALLOW_CONFLICTS. It equals those two plus the conflict flags, holds no other flag, and identifies the configured conflict strategy. |
| MergeOptions.CheckoutNotifyFlags | LibGit2Sharp/MergeOptions.cs:55-58 | A merge requests no checkout notifications (`CheckoutNotifyFlags.None`). |
| MergeOptions.NotifyFlagsIndependent | LibGit2Sharp/MergeOptions.cs:55-58 | The merge's notify flags are the same whatever the option values. |
| MergeOptions.GenerateCallbacks | LibGit2Sharp/MergeOptions.cs:40-43 | The merge's callbacks carry neither a progress nor a notify delegate. |
| MergeOptions.Kind | LibGit2Sharp/MergeOptions.cs:92-113 | A fast-forward happens if and only if one is possible and the strategy is not `NoFastFoward`. A non-fast-forward merge happens if and only if the strategy is `NoFastFoward`, or it is `Default` and no fast-forward is possible. Nothing happens if and only if the strategy is `FastForwardOnly` and no fast-forward is possible. |
| MergeOptions.Merge | LibGit2Sharp/MergeOptions.cs:11-26 | A merge fast-forwards exactly when the strategy selects a fast-forward. It is committed exactly when it is a clean non-fast-forward merge and `CommitOnSuccess` holds. Conflicts stay staged exactly when a non-fast-forward merge conflicts. |
| MergeOptions.DefaultFastForwardsWhenPossible | LibGit2Sharp/MergeOptions.cs:97-102 | Under `Default`, a possible fast-forward is taken. When none is possible, the outcome is a non-fast-forward merge: committed, staged, or left with conflicts. |
| MergeOptions.NoFastForwardAlwaysMerges | LibGit2Sharp/MergeOptions.cs:104-107 | Under `NoFastFoward`, the outcome is always a non-fast-forward merge, even when a fast-forward is possible: committed, staged, or left with conflicts. A clean merge with `CommitOnSuccess` is committed. |
| MergeOptions.FastForwardOnlyNeverMerges | LibGit2Sharp/MergeOptions.cs:109-112 | Under `FastForwardOnly`, there is never a non-fast-forward merge. The outcome is a fast-forward when one is possible and no merge otherwise. |
| MergeOptions.MergeDefaults | LibGit2Sharp/MergeOptions.cs:12-14 | With a new `MergeOptions`, a clean merge fast-forwards when possible and otherwise is committed. |
| MergeOptions.CommitOnSuccessIrrelevantToFastForward | LibGit2Sharp/MergeOptions.cs:21-26 | A fast-forward creates no commit, whatever the value of `CommitOnSuccess`. |
| OptionsAgreement.ConflictTranslationsAgree | LibGit2Sharp/MergeOptions.cs:62-89 | For the same file-conflict strategy, `MergeOptions` and `RevertOptions` raise the same conflict flags and the same checkout strategy. |

## Left out

- The native engine: tree diffing, three-way merge, conflict staging in the index, on-disk checkout, and commit creation. These sit behind the foreign-function boundary. The model takes their results as inputs: clean or conflicted, fast-forward possible or not, and the created commit's id.
- What USE_OURS, USE_THEIRS, CONFLICT_STYLE_MERGE and CONFLICT_STYLE_DIFF3 write to disk. The option classes only choose the flag.
- The numeric bit values of `CheckoutStrategy` and `CheckoutNotifyFlags`. Those enums are not part of this model. Flags are named values. Flags of `CheckoutStrategy` that `RevertOptions` and `MergeOptions` do not name are `Other(name)`.
- `CheckoutCallbacks.From` internals and delegate marshalling. Only the pair of delegates given to `CheckoutCallbacks.From` is modelled. A callback is modelled only as present or absent, with an identity.
- The guarantee that a registered progress delegate is invoked during a revert. It depends on the native checkout actually running.
- `CheckoutOptions`. It is a property bag with no logic.
- `Repository.Revert` and `Repository.Merge` are not part of this model. Their outcome rules come from the option classes' documentation and the revert tests.
- Out-of-range enum values. C# allows a cast such as `(CheckoutFileConflictStrategy)7`. The switch has no case for it, so such a value would keep the default flags, just like `Default`. The model's enum datatypes have only the declared values.
- `Repository.Merge`, which decides what happens under `FastForwardOnly` when no fast-forward is possible, is not modelled. The model represents this case as `Rejected`: no fast-forward and no commit.
- The up-to-date merge case, where there is nothing to merge. It is decided by `Repository.Merge`, which is not modelled.
- RevertOptions.Revert: native errors, which the program raises as exceptions, are not modelled; the outcome type has no error case.
- MergeOptions.Merge: native errors, which the program raises as exceptions, are not modelled; the outcome type has no error case. This includes the case `Rejected` stands for, where the program may raise an error instead of returning.
- Test fixture mechanics: cloning, file reads, and the specific commit and blob SHA values.
- Checkout progress and notifications for a merge. `MergeOptions.GenerateCallbacks` passes neither delegate, as the code does, so `MergeOptions` has no delegate members.
- `FastForwardStrategy.NoFastFoward` keeps the source's spelling.
