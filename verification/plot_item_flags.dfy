/** The tag and flag vocabulary of a plot item: the runtime type tags
    (`RttiValues`) and the three flag enumerations (`ItemAttribute`,
    `ItemInterest`, `RenderHint`) together with the bit operations the item
    applies to its flag words.

    A flag word is the integer held by a `QFlags`. It is modelled as a `bv8`,
    so that `|`, `&` and `~` are the source's bit operations: every
    enumerator lies in the low three bits and the setters only ever combine a
    word with one enumerator, so the bits above the eighth stay zero in the
    source and carry no information. */
module PlotItemFlags {

  import opened Options

  /** The integer behind a `QFlags<…>` value. */
  type Bits = bv8

  // ---------------------------------------------------------------------
  // Runtime type tags
  // ---------------------------------------------------------------------

  /** The enumerators of `RttiValues`, in declaration order. */
  datatype RttiValues =
    | Rtti_PlotItem
    | Rtti_PlotGrid
    | Rtti_PlotScale
    | Rtti_PlotLegend
    | Rtti_PlotMarker
    | Rtti_PlotCurve
    | Rtti_PlotSpectroCurve
    | Rtti_PlotIntervalCurve
    | Rtti_PlotHistogram
    | Rtti_PlotSpectrogram
    | Rtti_PlotSVG
    | Rtti_PlotTradingCurve
    | Rtti_PlotBarChart
    | Rtti_PlotMultiBarChart
    | Rtti_PlotUserItem

  /** Position of an enumerator in the declaration. */
  function Position(r: RttiValues): nat
  {
    match r
    case Rtti_PlotItem => 0
    case Rtti_PlotGrid => 1
    case Rtti_PlotScale => 2
    case Rtti_PlotLegend => 3
    case Rtti_PlotMarker => 4
    case Rtti_PlotCurve => 5
    case Rtti_PlotSpectroCurve => 6
    case Rtti_PlotIntervalCurve => 7
    case Rtti_PlotHistogram => 8
    case Rtti_PlotSpectrogram => 9
    case Rtti_PlotSVG => 10
    case Rtti_PlotTradingCurve => 11
    case Rtti_PlotBarChart => 12
    case Rtti_PlotMultiBarChart => 13
    case Rtti_PlotUserItem => 14
  }

  /** The enumerator declared just before `r` (the first one has none and
      maps to itself). */
  function Previous(r: RttiValues): (q: RttiValues)
    ensures Position(r) > 0 ==> Position(q) + 1 == Position(r)
  {
    match r
    case Rtti_PlotItem => Rtti_PlotItem
    case Rtti_PlotGrid => Rtti_PlotItem
    case Rtti_PlotScale => Rtti_PlotGrid
    case Rtti_PlotLegend => Rtti_PlotScale
    case Rtti_PlotMarker => Rtti_PlotLegend
    case Rtti_PlotCurve => Rtti_PlotMarker
    case Rtti_PlotSpectroCurve => Rtti_PlotCurve
    case Rtti_PlotIntervalCurve => Rtti_PlotSpectroCurve
    case Rtti_PlotHistogram => Rtti_PlotIntervalCurve
    case Rtti_PlotSpectrogram => Rtti_PlotHistogram
    case Rtti_PlotSVG => Rtti_PlotSpectrogram
    case Rtti_PlotTradingCurve => Rtti_PlotSVG
    case Rtti_PlotBarChart => Rtti_PlotTradingCurve
    case Rtti_PlotMultiBarChart => Rtti_PlotBarChart
    case Rtti_PlotUserItem => Rtti_PlotMultiBarChart
  }

  /** The explicit initialiser written in the declaration, if any. */
  function Initializer(r: RttiValues): Option<int>
  {
    match r
    case Rtti_PlotItem => Some(0)
    case Rtti_PlotUserItem => Some(1000)
    case _ => None
  }

  /** The value C++ gives an enumerator: its explicit initialiser, or one more
      than the enumerator before it (zero for a first enumerator without one). */
  function RttiValue(r: RttiValues): int
    decreases Position(r)
  {
    match Initializer(r)
    case Some(v) => v
    case None => if Position(r) == 0 then 0 else RttiValue(Previous(r)) + 1
  }

  /** A tag of the library's own item kinds, as opposed to the first user tag. */
  predicate IsBuiltin(r: RttiValues)
  {
    r != Rtti_PlotUserItem
  }

  /** The built-in tags are consecutive from zero: `Rtti_PlotItem` is 0 and
      `Rtti_PlotGrid` … `Rtti_PlotMultiBarChart` are 1 … 13. */
  lemma {:induction false} BuiltinRttiConsecutive(r: RttiValues)
    requires IsBuiltin(r)
    ensures RttiValue(r) == Position(r)
    ensures 0 <= RttiValue(r) <= 13
    decreases Position(r)
  {
    if Position(r) > 0 {
      BuiltinRttiConsecutive(Previous(r));
    }
  }

  /** Built-in tags are pairwise distinct. */
  lemma BuiltinRttiDistinct(r: RttiValues, q: RttiValues)
    requires IsBuiltin(r) && IsBuiltin(q) && r != q
    ensures RttiValue(r) != RttiValue(q)
  {
    BuiltinRttiConsecutive(r);
    BuiltinRttiConsecutive(q);
  }

  /** `Rtti_PlotUserItem` lies strictly above every built-in tag, so a user
      kind numbered from it never collides with a library kind. */
  lemma UserRttiAboveBuiltins(r: RttiValues)
    requires IsBuiltin(r)
    ensures RttiValue(r) < RttiValue(Rtti_PlotUserItem) == 1000
  {
    BuiltinRttiConsecutive(r);
  }

  // ---------------------------------------------------------------------
  // Flag enumerations
  // ---------------------------------------------------------------------

  datatype ItemAttribute = Legend | AutoScale | Margins
  datatype ItemInterest = ScaleInterest | LegendInterest
  datatype RenderHint = RenderAntialiased | RenderFloats

  function AttributeBit(a: ItemAttribute): Bits
  {
    match a
    case Legend => 0x01
    case AutoScale => 0x02
    case Margins => 0x04
  }

  function InterestBit(i: ItemInterest): Bits
  {
    match i
    case ScaleInterest => 0x01
    case LegendInterest => 0x02
  }

  function HintBit(h: RenderHint): Bits
  {
    match h
    case RenderAntialiased => 0x1
    case RenderFloats => 0x2
  }

  /** The bit position of each enumerator (`Legend = 0x01` is bit 0, …). */
  function AttributeIndex(a: ItemAttribute): nat
  {
    match a
    case Legend => 0
    case AutoScale => 1
    case Margins => 2
  }

  function HintIndex(h: RenderHint): nat
  {
    match h
    case RenderAntialiased => 0
    case RenderFloats => 1
  }

  /** Bit number `k` of `flags` is set. */
  predicate BitAt(flags: Bits, k: nat)
    requires k < 8
  {
    (flags >> k) & 1 == 1
  }

  /** `b` has exactly one bit set. */
  predicate SingleBit(b: Bits)
  {
    b != 0 && b & (b - 1) == 0
  }

  /** The test the item performs on a flag word: is any bit of `bit` set? */
  predicate TestBit(flags: Bits, bit: Bits)
  {
    flags & bit != 0
  }

  /** `x` and `y` agree on every bit outside `mask`. */
  predicate SameOutside(x: Bits, y: Bits, mask: Bits)
  {
    x & !mask == y & !mask
  }

  /** `flags |= bit` when `on`, `flags &= ~bit` otherwise. Afterwards the
      tested bit reads `on` and every bit outside `bit` is as it was. */
  function SetBit(flags: Bits, bit: Bits, on: bool): (r: Bits)
    ensures bit != 0 ==> TestBit(r, bit) == on
    ensures SameOutside(r, flags, bit)
  {
    if on then flags | bit else flags & !bit
  }

  /** Toggling one item attribute makes its test read `on` and never
      changes the test of another. */
  lemma AttributeToggle(flags: Bits, a: ItemAttribute, on: bool)
    ensures TestBit(SetBit(flags, AttributeBit(a), on), AttributeBit(a)) == on
    ensures SameOutside(SetBit(flags, AttributeBit(a), on), flags, AttributeBit(a))
    ensures forall b :: b != a ==>
      TestBit(SetBit(flags, AttributeBit(a), on), AttributeBit(b)) == TestBit(flags, AttributeBit(b))
  {
  }

  /** Toggling one render hint makes its test read `on` and never changes
      the test of the other. */
  lemma HintToggle(flags: Bits, h: RenderHint, on: bool)
    ensures TestBit(SetBit(flags, HintBit(h), on), HintBit(h)) == on
    ensures SameOutside(SetBit(flags, HintBit(h), on), flags, HintBit(h))
    ensures forall g :: g != h ==>
      TestBit(SetBit(flags, HintBit(h), on), HintBit(g)) == TestBit(flags, HintBit(g))
  {
  }

  /** `Legend`, `AutoScale` and `Margins` are distinct single bits. */
  lemma AttributeBitsAreDistinctSingleBits(a: ItemAttribute, b: ItemAttribute)
    ensures SingleBit(AttributeBit(a))
    ensures a != b ==> AttributeBit(a) & AttributeBit(b) == 0
  {
  }

  /** `ScaleInterest` and `LegendInterest` are distinct single bits. */
  lemma InterestBitsAreDistinctSingleBits(a: ItemInterest, b: ItemInterest)
    ensures SingleBit(InterestBit(a))
    ensures a != b ==> InterestBit(a) & InterestBit(b) == 0
  {
  }

  /** `RenderAntialiased` and `RenderFloats` are distinct single bits. */
  lemma HintBitsAreDistinctSingleBits(a: RenderHint, b: RenderHint)
    ensures SingleBit(HintBit(a))
    ensures a != b ==> HintBit(a) & HintBit(b) == 0
  {
  }
}
