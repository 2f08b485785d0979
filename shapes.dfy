/**
 * The shape of a parameter bundle: the runtime type of each stored value,
 * position by position. `DataObject::Check<Args...>()` compares a bundle's
 * shape with the list `Args...` of expected types.
 */
module Shapes {
  import opened Wrappers
  import opened Values

  /** The runtime types of `vs`, in position order. */
  function Shape(vs: seq<Value>): (ts: seq<TypeTag>)
    ensures |ts| == |vs|
    ensures forall i :: 0 <= i < |vs| ==> ts[i] == TypeOf(vs[i])
  {
    if vs == [] then [] else [TypeOf(vs[0])] + Shape(vs[1..])
  }

  /** What `Check` writes to the error log: the position, the stored type and the expected type. */
  datatype Mismatch = Mismatch(index: nat, stored: TypeTag, expected: TypeTag)

  /**
   * The first position at which two equally long type lists disagree,
   * or None when they are equal.
   */
  function FirstMismatch(stored: seq<TypeTag>, expected: seq<TypeTag>): (m: Option<Mismatch>)
    requires |stored| == |expected|
    ensures m.None? <==> stored == expected
    ensures m.Some? ==>
              m.value.index < |stored| &&
              m.value.stored == stored[m.value.index] &&
              m.value.expected == expected[m.value.index] &&
              m.value.stored != m.value.expected &&
              forall j :: 0 <= j < m.value.index ==> stored[j] == expected[j]
  {
    if stored == [] then None
    else if stored[0] != expected[0] then Some(Mismatch(0, stored[0], expected[0]))
    else
      match FirstMismatch(stored[1..], expected[1..])
      case None =>
        assert stored == [stored[0]] + stored[1..] && expected == [expected[0]] + expected[1..];
        None
      case Some(m) => Some(Mismatch(m.index + 1, m.stored, m.expected))
  }

  /**
   * A position where the lists disagree, preceded only by agreeing
   * positions, is the one FirstMismatch reports.
   */
  lemma FirstMismatchAt(stored: seq<TypeTag>, expected: seq<TypeTag>, k: nat)
    requires |stored| == |expected|
    requires k < |stored| && stored[k] != expected[k]
    requires forall j :: 0 <= j < k ==> stored[j] == expected[j]
    ensures FirstMismatch(stored, expected) == Some(Mismatch(k, stored[k], expected[k]))
  {
  }

  /** The shape of a concatenation is the concatenation of the shapes. */
  lemma ShapeAppend(vs: seq<Value>, ws: seq<Value>)
    ensures Shape(vs + ws) == Shape(vs) + Shape(ws)
  {
  }
}
