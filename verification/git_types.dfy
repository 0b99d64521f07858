/**
 Small value types shared by the option models: a nullable reference, the
 abstract identity of a commit, the two outcomes of a conflict-bearing checkout,
 and the 32-bit signed integer of the managed runtime.
 */
module GitTypes {

  /** A managed reference that may be null. */
  datatype Option<+T> = None | Some(value: T)

  /** A commit created by the native engine; only its identity matters here. */
  datatype CommitId = CommitId(sha: seq<char>)

  /** What the native checkout left behind: a clean index or staged conflicts. */
  datatype CheckoutResult = Clean | Conflicted

  /** The range of a C# `int`. */
  newtype int32 = x: int | -0x8000_0000 <= x < 0x8000_0000
}
