/**
 * Identifier equality and hashing shared by the entity records. The model packages
 * (model/...) use Java `int` ids, the optimizer packages (optimizer/model/...) use `long`
 * ids; both compare by id alone and hash to the id (`Long.hashCode` for longs).
 */
module Identity {

  datatype IdWidth = IntId | LongId

  const INT_MIN: int := -0x8000_0000
  const INT_MAX: int := 0x7FFF_FFFF
  const LONG_MIN: int := -0x8000_0000_0000_0000
  const LONG_MAX: int := 0x7FFF_FFFF_FFFF_FFFF

  predicate FitsInt(v: int) { INT_MIN <= v <= INT_MAX }

  predicate Fits(width: IdWidth, id: int) {
    match width
    case IntId => FitsInt(id)
    case LongId => LONG_MIN <= id <= LONG_MAX
  }

  function Pow2(n: nat): (p: nat)
    ensures p >= 1
  {
    if n == 0 then 1 else 2 * Pow2(n - 1)
  }

  /** Bitwise exclusive or of the low `n` bits of `a` and `b`. */
  function XorBits(a: nat, b: nat, n: nat): (r: nat)
    ensures r < Pow2(n)
  {
    if n == 0 then 0 else 2 * XorBits(a / 2, b / 2, n - 1) + (if a % 2 == b % 2 then 0 else 1)
  }

  /** The int whose 32-bit two's-complement pattern is the unsigned value `u`. */
  function SignedInt(u: nat): (r: int)
    requires u < 0x1_0000_0000
    ensures FitsInt(r)
  {
    if u >= 0x8000_0000 then u - 0x1_0000_0000 else u
  }

  /**
   * `Long.hashCode(v)`, that is `(int) (v ^ (v >>> 32))`: the low word of the 64-bit
   * pattern xor-ed with its high word, read as a signed int.
   */
  function LongHashCode(v: int): (h: int)
    requires LONG_MIN <= v <= LONG_MAX
    ensures FitsInt(h)
  {
    var unsigned := if v < 0 then v + 0x1_0000_0000_0000_0000 else v;
    Pow2Of32();
    SignedInt(XorBits(unsigned % 0x1_0000_0000, unsigned / 0x1_0000_0000, 32))
  }

  lemma Pow2Of32()
    ensures Pow2(32) == 0x1_0000_0000
  {
    assert Pow2(8) == 0x100;
    assert Pow2(16) == 0x1_0000;
    assert Pow2(24) == 0x100_0000;
  }

  lemma {:induction false} XorZero(a: nat, n: nat)
    requires a < Pow2(n)
    ensures XorBits(a, 0, n) == a
  {
    if n > 0 {
      XorZero(a / 2, n - 1);
    }
  }

  /** `hashCode()` of an id-identified record. */
  function IdHashCode(width: IdWidth, id: int): (h: int)
    requires Fits(width, id)
    ensures FitsInt(h)
    ensures width == IntId ==> h == id
  {
    match width
    case IntId => id
    case LongId => LongHashCode(id)
  }

  /** A long id that also fits a non-negative int hashes to itself. */
  lemma LongHashOfSmallId(v: int)
    requires 0 <= v <= INT_MAX
    ensures LongHashCode(v) == v
  {
    Pow2Of32();
    XorZero(v, 32);
  }

  /** The argument of `equals(Object)`: either an instance of the same record type or something else. */
  datatype Obj<T> = Instance(value: T) | OtherType
}
