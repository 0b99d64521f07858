/**
 The native checkout strategy as a set of named flags. A bitwise OR of
 `CheckoutStrategy` values becomes set union; the enum's numeric bit values are
 not modelled.
 */
module CheckoutFlags {

  /** One flag of the native `CheckoutStrategy` enum. The six flags these option
      classes name are constructors of their own; every other flag of the enum
      is an `Other` flag, identified by its name. */
  datatype Flag =
    | SafeCreate          // GIT_CHECKOUT_SAFE_CREATE
    | AllowConflicts      // GIT_CHECKOUT_ALLOW_CONFLICTS
    | UseOurs             // GIT_CHECKOUT_USE_OURS
    | UseTheirs           // GIT_CHECKOUT_USE_THEIRS
    | ConflictStyleMerge  // GIT_CHECKOUT_CONFLICT_STYLE_MERGE
    | ConflictStyleDiff3  // GIT_CHECKOUT_CONFLICT_STYLE_DIFF3
    | Other(name: seq<char>)

  /** A `CheckoutStrategy` value: the set of its raised flags. `default(CheckoutStrategy)`
      is the empty set. */
  type FlagSet = set<Flag>

  /** The flags every revert and merge checkout starts from. */
  const BaseFlags: FlagSet := {SafeCreate, AllowConflicts}

  /** The flags a file-conflict strategy may contribute. */
  const ConflictStyleFlags: FlagSet := {UseOurs, UseTheirs, ConflictStyleMerge, ConflictStyleDiff3}

  /** `parts[0] | parts[1] | ... | parts[n-1]`, associated to the left as C# does. */
  function Or(parts: seq<FlagSet>): (r: FlagSet)
    ensures forall i :: 0 <= i < |parts| ==> parts[i] <= r
    ensures forall f :: f in r ==> exists i :: 0 <= i < |parts| && f in parts[i]
    decreases |parts|
  {
    if parts == [] then {} else Or(parts[..|parts| - 1]) + parts[|parts| - 1]
  }

  /** The three-operand OR `a | b | c` is the union of its operands. */
  lemma OrOfThree(a: FlagSet, b: FlagSet, c: FlagSet)
    ensures Or([a, b, c]) == a + b + c
  {
    var parts := [a, b, c];
    var r := Or(parts);
    assert parts[0] <= r && parts[1] <= r && parts[2] <= r;
    forall f | f in r
      ensures f in a + b + c
    {
      var i :| 0 <= i < |parts| && f in parts[i];
      assert i == 0 || i == 1 || i == 2;
    }
  }

  /** `GIT_CHECKOUT_SAFE_CREATE | GIT_CHECKOUT_ALLOW_CONFLICTS | extra`, the
      strategy both option classes hand to a conflict-bearing checkout. */
  function WithBaseFlags(extra: FlagSet): (r: FlagSet)
    ensures SafeCreate in r && AllowConflicts in r
    ensures r == BaseFlags + extra
  {
    OrOfThree({SafeCreate}, {AllowConflicts}, extra);
    Or([{SafeCreate}, {AllowConflicts}, extra])
  }

  /** The native notify flags (`CheckoutNotifyFlags`); `CheckoutNotifyFlags.None` is the
      empty set. The enum is not part of this model, so flags are known by name only. */
  datatype NotifyFlag = NotifyFlag(name: seq<char>)
}
