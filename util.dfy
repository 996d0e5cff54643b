/** Shared result types and the enum helpers of Util.kt. */
module Util {

  /** A byte on the wire, read as unsigned: Kotlin's `Byte` bits taken as 0..255. */
  newtype byte = b: int | 0 <= b < 256

  /** Kotlin's nullable value: `null` is None. */
  datatype Option<+T> = None | Some(value: T)

  /** A value or the exception that the Kotlin code throws instead. */
  datatype Result<+T, +E> = Ok(value: T) | Err(error: E)

  /** A call that returns Unit or throws. */
  datatype Outcome<+E> = Pass | Fail(error: E)

  /** IllegalArgumentException("index $index is out of bounds") thrown by `enumEntryAt`. */
  datatype EnumError = IndexOutOfBounds(index: int)

  /**
   * `enumEntryAt<T>(index)`: the entry of an enum class at a position of its
   * declaration order, `entries.getOrNull(index) ?: throw ...`.
   */
  function EnumEntryAt<T>(entries: seq<T>, index: int): (r: Result<T, EnumError>)
    ensures r.Ok? <==> 0 <= index < |entries|
    ensures r.Ok? ==> r.value == entries[index] && r.value in entries
    ensures r.Err? ==> r.error == IndexOutOfBounds(index)
  {
    if 0 <= index < |entries| then Ok(entries[index]) else Err(IndexOutOfBounds(index))
  }

  /** Kotlin's `ordinal`: the position of an entry in its enum's declaration order. */
  function Ordinal<T(==)>(entries: seq<T>, e: T): (i: nat)
    requires e in entries
    ensures i < |entries| && entries[i] == e
    ensures forall j :: 0 <= j < i ==> entries[j] != e
  {
    if entries[0] == e then 0 else 1 + Ordinal(entries[1..], e)
  }

  /** Enum entries are pairwise distinct. */
  ghost predicate Distinct<T>(entries: seq<T>) {
    forall i, j :: 0 <= i < j < |entries| ==> entries[i] != entries[j]
  }

  /** Looking an entry up at its own ordinal gives back the entry. */
  lemma EntryAtOrdinal<T>(entries: seq<T>, e: T)
    requires e in entries
    ensures EnumEntryAt(entries, Ordinal(entries, e)) == Ok(e)
  {
  }

  /** The other direction: the entry stored at index i has ordinal i. */
  lemma {:induction false} OrdinalOfEntryAt<T>(entries: seq<T>, i: nat)
    requires Distinct(entries) && i < |entries|
    ensures Ordinal(entries, entries[i]) == i
  {
    if entries[0] != entries[i] {
      assert i > 0;
      assert entries[1..][i - 1] == entries[i];
      OrdinalOfEntryAt(entries[1..], i - 1);
    }
  }

  /** `Flow<T?>.or(default)`: a missing (null) value reads as the default. */
  function Or<T>(value: Option<T>, default: T): (r: T)
    ensures value.None? ==> r == default
    ensures value.Some? ==> r == value.value
  {
    match value
    case None => default
    case Some(v) => v
  }
}
