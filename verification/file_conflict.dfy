/**
 `CheckoutFileConflictStrategy`: what checkout writes to disk for a conflicted
 path, and its translation into checkout flags.
 */
module FileConflict {
  import opened CheckoutFlags

  /** Which content checkout writes for a conflicted path. */
  datatype CheckoutFileConflictStrategy =
    | Default  // the native engine's own behaviour
    | Ours     // the stage-2 ("ours") version from the index
    | Theirs   // the stage-3 ("theirs") version from the index
    | Merge    // a file with normal conflict markers
    | Diff3    // a file with diff3-style conflict markers

  /** The flag each strategy raises, as the switch of the option classes
      assigns it. `Default` raises none. */
  function ConflictFlags(s: CheckoutFileConflictStrategy): (r: FlagSet)
    ensures r <= ConflictStyleFlags
    ensures r == {} <==> s == Default
    ensures s != Default ==> |r| == 1
    ensures r !! BaseFlags
  {
    match s
    case Default => {}
    case Ours => {UseOurs}
    case Theirs => {UseTheirs}
    case Merge => {ConflictStyleMerge}
    case Diff3 => {ConflictStyleDiff3}
  }

  /** The case labels of the switch, in source order, each with the flag it assigns. */
  const SwitchCases: seq<(CheckoutFileConflictStrategy, Flag)> :=
    [(Ours, UseOurs), (Theirs, UseTheirs), (Merge, ConflictStyleMerge), (Diff3, ConflictStyleDiff3)]

  /** The switch statement executed as written: `flags` starts at
      `default(CheckoutStrategy)`, the case labels are tried in order, and the
      first match assigns its flag and breaks. A strategy with no case keeps the
      default. */
  method SwitchConflictFlags(s: CheckoutFileConflictStrategy) returns (flags: FlagSet)
    ensures flags == ConflictFlags(s)
  {
    SwitchCasesMatchTable();
    flags := {};
    var i := 0;
    while i < |SwitchCases|
      invariant 0 <= i <= |SwitchCases|
      invariant flags == {}
      invariant forall j :: 0 <= j < i ==> SwitchCases[j].0 != s
    {
      if SwitchCases[i].0 == s {
        flags := {SwitchCases[i].1};
        return;
      }
      i := i + 1;
    }
    assert s != SwitchCases[0].0 && s != SwitchCases[1].0 && s != SwitchCases[2].0 && s != SwitchCases[3].0;
  }

  /** Every case label of the switch assigns the flag the table gives its strategy. */
  lemma SwitchCasesMatchTable()
    ensures forall j :: 0 <= j < |SwitchCases| ==> ConflictFlags(SwitchCases[j].0) == {SwitchCases[j].1}
  {
  }

  /** Reads the file-conflict strategy back from a checkout strategy. */
  function StrategyOf(flags: FlagSet): CheckoutFileConflictStrategy
  {
    if UseOurs in flags then Ours
    else if UseTheirs in flags then Theirs
    else if ConflictStyleMerge in flags then Merge
    else if ConflictStyleDiff3 in flags then Diff3
    else Default
  }

  /** The base flags carry no strategy, so the strategy is recoverable from the
      whole checkout strategy it is ORed into. */
  lemma StrategyOfRoundTrip(s: CheckoutFileConflictStrategy)
    ensures StrategyOf(BaseFlags + ConflictFlags(s)) == s
  {
  }

  /** Distinct strategies raise distinct flags. */
  lemma ConflictFlagsInjective(a: CheckoutFileConflictStrategy, b: CheckoutFileConflictStrategy)
    ensures ConflictFlags(a) == ConflictFlags(b) <==> a == b
  {
  }
}
