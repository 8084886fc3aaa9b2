/**
 * Movable demands (model/sourcesink/MovableDemand and its long-id twin): a fixed power
 * profile, with no interval offset, that the optimizer may start at any interval of
 * `startIntervals`. The Java set of start intervals is a duplicate-free sequence in its
 * iteration order.
 */
module MovableDemands {
  import opened Identity

  datatype MovableDemand = MovableDemand(id: int, name: string, profile: seq<real>, startIntervals: seq<int>)

  /** The start intervals come from a set: no interval is listed twice. */
  predicate DistinctStarts(d: MovableDemand) {
    forall i, j :: 0 <= i < j < |d.startIntervals| ==> d.startIntervals[i] != d.startIntervals[j]
  }

  /** `equals`: same id, whatever the name, profile and start intervals; never equal to another type. */
  function Equals(d: MovableDemand, o: Obj<MovableDemand>): (r: bool)
    ensures r <==> o.Instance? && o.value.id == d.id
  {
    match o
    case Instance(other) => d.id == other.id
    case OtherType => false
  }

  /** `hashCode`: the id, or `Long.hashCode` of the id for the long-id record. */
  function HashCode(width: IdWidth, d: MovableDemand): (h: int)
    requires Fits(width, d.id)
    ensures FitsInt(h)
    ensures width == IntId ==> h == d.id
  {
    IdHashCode(width, d.id)
  }

  /** Equality ignores every field but the id, and equal demands hash alike under either width. */
  lemma EqualityIsIdentity(width: IdWidth, a: MovableDemand, b: MovableDemand)
    requires Fits(width, a.id) && Fits(width, b.id)
    ensures Equals(a, Instance(b)) <==> a.id == b.id
    ensures Equals(a, Instance(a.(name := b.name, profile := b.profile, startIntervals := b.startIntervals)))
    ensures Equals(a, Instance(b)) ==> HashCode(width, a) == HashCode(width, b)
    ensures !Equals(a, OtherType)
  {
  }

  /** For ids in [0, 2^31) the long-id record hashes exactly like the int-id record. */
  lemma LongAndIntHashAgree(d: MovableDemand)
    requires 0 <= d.id <= INT_MAX
    ensures HashCode(LongId, d) == HashCode(IntId, d)
  {
    LongHashOfSmallId(d.id);
  }
}
