/**
 `RevertOptions` and `MergeOptions` each carry their own copy of the
 conflict-strategy switch; this module relates the two copies. Each copy is
 proved equal to the translation table `FileConflict.ConflictFlags`, and the
 agreement follows from those two facts.
 */
module OptionsAgreement {
  import FileConflict
  import RevertOptions
  import MergeOptions

  /** For the same file-conflict strategy, both classes raise the same conflict
      flags and ask the native checkout for the same strategy. */
  lemma ConflictTranslationsAgree(r: RevertOptions.Options, m: MergeOptions.Options)
    requires r.fileConflictStrategy == m.fileConflictStrategy
    ensures RevertOptions.ConflictStrategyFlags(r) == MergeOptions.ConflictStrategyFlags(m)
    ensures RevertOptions.CheckoutStrategy(r) == MergeOptions.CheckoutStrategy(m)
  {
  }
}
