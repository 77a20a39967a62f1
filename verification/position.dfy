/** The position classifier of `joystick_getPosition`: two signed axis
    readings mapped to a position code 0..8 by six fixed-threshold rules.
    Codes are kept as plain numbers; 0 is the documented start (centre)
    position. */
module Position {
  import opened Bytes

  /** The classifier exactly as the driver runs it: the code starts at 0 and
      six independent rules are tried in order, each able to overwrite what
      an earlier one assigned. */
  function Classify(ox: Int8, oy: Int8): (position: int)
    ensures 0 <= position <= 8
    ensures ox <= -60 ==> position == 3
    ensures ox >= 60 ==> position == 7
    ensures -60 < ox < -20 ==> position == (if oy > 20 then 2 else 4)
    ensures 20 < ox < 60 ==> position == (if oy < -20 then 6 else 8)
    ensures -20 <= ox < 20 && oy >= 60 ==> position == 1
    ensures -20 <= ox <= 20 && oy <= -60 ==> position == 5
    ensures -20 <= ox <= 20 && -60 < oy < 60 ==> position == 0
  {
    var p0 := 0;
    var p1 := if ox <= -60 then 3 else p0;
    var p2 := if ox >= 60 then 7 else p1;
    var p3 := if oy >= 60 && ox < 20 && ox >= -20 then 1 else p2;
    var p4 := if oy <= -60 && ox <= 20 && ox >= -20 then 5 else p3;
    var p5 := if ox < -20 && ox > -60 then (if oy > 20 then 2 else 4) else p4;
    var p6 := if ox < 60 && ox > 20 then (if oy < -20 then 6 else 8) else p5;
    p6
  }

  /** The guard of the `k`-th assigning rule, 1..6, in source order. */
  predicate Rule(k: int, ox: Int8, oy: Int8)
    requires 1 <= k <= 6
  {
    match k
    case 1 => ox <= -60
    case 2 => ox >= 60
    case 3 => oy >= 60 && -20 <= ox < 20
    case 4 => oy <= -60 && -20 <= ox <= 20
    case 5 => -60 < ox < -20
    case _ => 20 < ox < 60
  }

  /** No two rule guards hold at once, so at most one assignment fires and
      the order of the rules never decides the result. */
  lemma RulesDisjoint(j: int, k: int, ox: Int8, oy: Int8)
    requires 1 <= j <= 6 && 1 <= k <= 6
    requires Rule(j, ox, oy) && Rule(k, ox, oy)
    ensures j == k
  {
  }

  /** The same table written as an `else if` chain, the form a reader would
      expect when the guards are disjoint. */
  function ClassifyExclusive(ox: Int8, oy: Int8): int {
    if ox <= -60 then 3
    else if ox >= 60 then 7
    else if oy >= 60 && -20 <= ox < 20 then 1
    else if oy <= -60 && -20 <= ox <= 20 then 5
    else if -60 < ox < -20 then (if oy > 20 then 2 else 4)
    else if 20 < ox < 60 then (if oy < -20 then 6 else 8)
    else 0
  }

  /** Running the rules independently gives the same code as the `else if`
      chain, on every pair of readings. */
  lemma SequentialIsExclusive(ox: Int8, oy: Int8)
    ensures Classify(ox, oy) == ClassifyExclusive(ox, oy)
  {
  }

  /** The region of the (ox, oy) plane that receives code `c`, written as a
      description of the region rather than as a sequence of rules. Code 0
      is the centre box plus the column ox = 20 above oy = 60 that neither
      vertical band claims. */
  predicate Zone(c: int, ox: Int8, oy: Int8) {
    match c
    case 0 => -20 <= ox <= 20 && (-60 < oy < 60 || (ox == 20 && oy >= 60))
    case 1 => -20 <= ox < 20 && oy >= 60
    case 2 => -60 < ox < -20 && oy > 20
    case 3 => ox <= -60
    case 4 => -60 < ox < -20 && oy <= 20
    case 5 => -20 <= ox <= 20 && oy <= -60
    case 6 => 20 < ox < 60 && oy < -20
    case 7 => ox >= 60
    case 8 => 20 < ox < 60 && oy >= -20
    case _ => false
  }

  /** The classifier returns `c` exactly on zone `c`, in both directions. */
  lemma ClassifyIsZone(c: int, ox: Int8, oy: Int8)
    ensures Classify(ox, oy) == c <==> Zone(c, ox, oy)
  {
  }

  /** The zones cover the whole 256 x 256 domain without overlap. */
  lemma ZonesPartition(ox: Int8, oy: Int8)
    ensures exists c :: 0 <= c <= 8 && Zone(c, ox, oy)
    ensures forall c, d :: Zone(c, ox, oy) && Zone(d, ox, oy) ==> c == d
  {
    ClassifyIsZone(Classify(ox, oy), ox, oy);
  }

  /** The vertical bands are not mirror images: the top band stops short of
      ox = 20 while the bottom band includes it. */
  lemma VerticalBandsAsymmetric()
    ensures Classify(20, 70) == 0
    ensures Classify(20, -70) == 5
    ensures Classify(-20, 70) == 1
    ensures Classify(-20, -70) == 5
  {
  }

  /** The horizontal and diagonal codes do not depend on how far `oy` is
      from the centre, only on which side of +-20 it lies. */
  lemma DiagonalsIgnoreMagnitude(ox: Int8, oy: Int8, oy': Int8)
    requires !(-20 <= ox <= 20)
    requires (oy > 20) == (oy' > 20) && (oy < -20) == (oy' < -20)
    ensures Classify(ox, oy) == Classify(ox, oy')
  {
  }
}
