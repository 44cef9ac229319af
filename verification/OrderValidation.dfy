/** Exact-decimal order validation of frontend/src/lib/manual-demo-validation.ts. */
module OrderValidation {
  import opened Options
  import opened Sums

  const SCALE: nat := 1000000000000000000

  // --- decimal strings

  predicate Digits(s: string) {
    forall i :: 0 <= i < |s| ==> '0' <= s[i] <= '9'
  }

  function NatOf(s: string): nat
    requires Digits(s)
  {
    if s == "" then 0 else 10 * NatOf(s[..|s| - 1]) + (s[|s| - 1] as int - '0' as int)
  }

  function Pow10(n: nat): nat {
    if n == 0 then 1 else 10 * Pow10(n - 1)
  }

  /** The position of the first point, or the length. */
  function Point(s: string): (i: nat)
    ensures i <= |s| && forall j :: 0 <= j < i ==> s[j] != '.'
    ensures i < |s| ==> s[i] == '.'
  {
    if s == "" || s[0] == '.' then 0 else 1 + Point(s[1..])
  }

  function Whole(s: string): string {
    s[..Point(s)]
  }

  function Fraction(s: string): string {
    if Point(s) == |s| then "" else s[Point(s) + 1..]
  }

  /** One to 24 digits, optionally a point and one to 18 digits. */
  predicate WellFormed(s: string) {
    && 1 <= |Whole(s)| <= 24 && Digits(Whole(s)) && Digits(Fraction(s))
    && (Point(s) < |s| ==> 1 <= |Fraction(s)| <= 18)
  }

  function PadEnd(s: string, n: nat): string
    decreases n - |s|
  {
    if |s| >= n then s else PadEnd(s + "0", n)
  }

  lemma {:induction false} PadScales(s: string, n: nat)
    requires Digits(s) && |s| <= n
    ensures Digits(PadEnd(s, n)) && NatOf(PadEnd(s, n)) == NatOf(s) * Pow10(n - |s|)
    decreases n - |s|
  {
    if |s| < n {
      var t := s + "0";
      assert t[..|s|] == s;
      assert NatOf(t) == 10 * NatOf(s);
      PadScales(t, n);
      assert Pow10(n - |s|) == 10 * Pow10(n - |t|);
      Regroup(NatOf(s), Pow10(n - |t|));
    }
  }

  lemma Regroup(a: nat, p: nat)
    ensures 10 * a * p == a * (10 * p)
  {
  }

  /** The scaled integer of a positive decimal string, or nothing. */
  function Decimal(s: string): Option<nat> {
    if !WellFormed(s) then None
    else
      PadScales(Fraction(s), 18);
      var n := NatOf(Whole(s)) * SCALE + NatOf(PadEnd(Fraction(s), 18));
      if n > 0 then Some(n) else None
  }

  /** What a decimal string denotes. */
  function Value(s: string): real
    requires WellFormed(s)
  {
    PowPositive(|Fraction(s)|);
    NatOf(Whole(s)) as real + NatOf(Fraction(s)) as real / Pow10(|Fraction(s)|) as real
  }

  lemma {:induction false} PowPositive(n: nat)
    ensures Pow10(n) > 0
  {
    if n > 0 {
      PowPositive(n - 1);
    }
  }

  lemma {:induction false} PowSplit(a: nat, b: nat)
    ensures Pow10(a + b) == Pow10(a) * Pow10(b)
  {
    if a > 0 {
      PowSplit(a - 1, b);
      assert Pow10(a + b) == 10 * Pow10(a - 1 + b);
      TenTimes(Pow10(a - 1), Pow10(b));
    }
  }

  lemma TenTimes(x: nat, y: nat)
    ensures 10 * (x * y) == (10 * x) * y
  {
  }

  lemma Pow18()
    ensures Pow10(18) == SCALE
  {
    assert Pow10(6) == 1000000;
    PowSplit(6, 6);
    PowSplit(6, 12);
  }

  predicate Positive(s: string) {
    WellFormed(s) && Value(s) > 0.0
  }

  /** The scaled integer is the denoted value exactly, and is absent exactly when the value is not positive. */
  lemma DecimalExact(s: string)
    ensures Decimal(s).Some? <==> Positive(s)
    ensures Decimal(s).Some? ==> Decimal(s).value as real == Value(s) * SCALE as real
  {
    if WellFormed(s) {
      var w, f, len := NatOf(Whole(s)), NatOf(Fraction(s)), |Fraction(s)|;
      PadScales(Fraction(s), 18);
      PowSplit(len, 18 - len);
      Pow18();
      PowPositive(len);
      PowPositive(18 - len);
      ScaleFraction(w, f, Pow10(len), Pow10(18 - len));
    }
  }

  lemma ScaleFraction(w: nat, f: nat, p: nat, r: nat)
    requires p > 0 && r > 0 && p * r == SCALE
    ensures (w * SCALE + f * r) as real == (w as real + f as real / p as real) * SCALE as real
    ensures w * SCALE + f * r > 0 <==> w as real + f as real / p as real > 0.0
  {
    var x := f as real / p as real;
    assert x * p as real == f as real;
    assert (p * r) as real == p as real * r as real;
    assert (f * r) as real == f as real * r as real;
    assert x * SCALE as real == x * p as real * r as real;
    assert x * p as real * r as real == f as real * r as real;
  }

  // --- the validator

  datatype Side = Buy | Sell

  datatype Order = Order(side: Side, quantity: string, stop: string, target: string)

  datatype Instrument = Instrument(
    minimumQuantity: string, maximumQuantity: string, lot: string, tick: string, referencePrice: string,
    multiplier: string, minimumNotional: string)

  datatype Problem = NotPositive | Metadata | Quantity | Increment | Geometry | Notional

  function Validate(o: Order, i: Instrument): Option<Problem> {
    var quantity, stop, target := Decimal(o.quantity), Decimal(o.stop), Decimal(o.target);
    if quantity.None? || stop.None? || target.None? then Some(NotPositive)
    else
      var minimum, maximum := Decimal(i.minimumQuantity), Decimal(i.maximumQuantity);
      var lot, tick, price := Decimal(i.lot), Decimal(i.tick), Decimal(i.referencePrice);
      var multiplier, notional := Decimal(i.multiplier), Decimal(i.minimumNotional);
      if minimum.None? || maximum.None? || lot.None? || tick.None? || price.None? || multiplier.None?
         || notional.None? then Some(Metadata)
      else Check(o.side, quantity.value, stop.value, target.value, minimum.value, maximum.value, lot.value,
                 tick.value, price.value, multiplier.value, notional.value)
  }

  /** The integer comparisons, on scaled values. */
  function Check(side: Side, quantity: nat, stop: nat, target: nat, minimum: nat, maximum: nat, lot: nat, tick: nat,
                 price: nat, multiplier: nat, notional: nat): Option<Problem>
  {
    var lower, upper := price * 999, price * 1001;
    if lot == 0 || tick == 0 then Some(Metadata)
    else if quantity < minimum || quantity > maximum || quantity % lot != 0 then Some(Quantity)
    else if stop % tick != 0 || target % tick != 0 then Some(Increment)
    else if (match side
             case Buy => stop * 1000 >= lower || target * 1000 <= upper
             case Sell => stop * 1000 <= upper || target * 1000 >= lower) then Some(Geometry)
    else if quantity * multiplier * lower < notional * SCALE * SCALE * 1000 then Some(Notional)
    else None
  }

  // --- what acceptance means, over exact rationals

  function Multiple(k: nat, unit: real): real {
    Times(k as real, unit)
  }

  ghost predicate MultipleOf(x: real, unit: real) {
    exists k: nat :: x == Multiple(k, unit)
  }

  /** A fill within 0.1 percent of the reference price. */
  ghost predicate NearFill(fill: real, price: real) {
    price * 0.999 <= fill <= price * 1.001
  }

  ghost predicate SafeFill(side: Side, stop: real, target: real, size: real, notional: real, fill: real) {
    && (if side == Buy then stop < fill < target else target < fill < stop)
    && Times(fill, size) >= notional
  }

  ghost predicate Sound(side: Side, quantity: real, stop: real, target: real, minimum: real, maximum: real, lot: real,
                        tick: real, price: real, multiplier: real, notional: real)
  {
    && minimum <= quantity <= maximum && MultipleOf(quantity, lot)
    && MultipleOf(stop, tick) && MultipleOf(target, tick)
    && forall fill :: NearFill(fill, price) ==>
         SafeFill(side, stop, target, Times(quantity, multiplier), notional, fill)
  }

  lemma MultipleIff(x: nat, unit: nat, rx: real, runit: real)
    requires unit > 0 && x as real == rx * SCALE as real && unit as real == runit * SCALE as real
    ensures x % unit == 0 <==> MultipleOf(rx, runit)
  {
    if x % unit == 0 {
      var k := x / unit;
      ScaledMultiple(k, unit, x, rx, runit);
      assert rx == Multiple(k, runit);
    }
    if MultipleOf(rx, runit) {
      var k: nat :| rx == Multiple(k, runit);
      ScaledMultiple(k, unit, x, rx, runit);
      Remainder(k, unit, x);
    }
  }

  lemma ScaledMultiple(k: nat, unit: nat, x: nat, rx: real, runit: real)
    requires x as real == rx * SCALE as real && unit as real == runit * SCALE as real
    ensures x == k * unit <==> rx == Multiple(k, runit)
  {
    ProductReal(k, unit);
    assert k as real * (runit * SCALE as real) == (k as real * runit) * SCALE as real;
  }

  lemma Remainder(k: nat, unit: nat, x: nat)
    requires unit > 0 && x == k * unit
    ensures x % unit == 0
  {
    var q, r := x / unit, x % unit;
    assert x == q * unit + r;
    assert (k - q) * unit == r;
    AwayFromZero(k - q, unit);
  }

  lemma AwayFromZero(d: int, unit: nat)
    ensures d >= 1 ==> d * unit >= unit
    ensures d <= -1 ==> d * unit + unit <= 0
  {
    if d >= 1 {
      assert (d - 1) * unit >= 0;
    }
    if d <= -1 {
      assert (-d - 1) * unit >= 0;
    }
  }

  /** The two ends of the entry range decide the geometry, and its lower end the notional. */
  lemma FillsIff(side: Side, stop: real, target: real, size: real, notional: real, price: real)
    requires price > 0.0 && size > 0.0
    ensures (forall fill :: NearFill(fill, price) ==> SafeFill(side, stop, target, size, notional, fill)) <==>
            && (if side == Buy then stop < price * 0.999 && price * 1.001 < target
                else target < price * 0.999 && price * 1.001 < stop)
            && Times(price * 0.999, size) >= notional
  {
    var low, high := price * 0.999, price * 1.001;
    assert NearFill(low, price) && NearFill(high, price);
    if forall fill :: NearFill(fill, price) ==> SafeFill(side, stop, target, size, notional, fill) {
      assert SafeFill(side, stop, target, size, notional, low);
      assert SafeFill(side, stop, target, size, notional, high);
    }
    forall fill | NearFill(fill, price) ensures Times(fill, size) >= Times(low, size) {
      TimesMonotone(low, fill, size);
    }
  }

  lemma NotionalIff(quantity: nat, multiplier: nat, price: nat, notional: nat,
                    rq: real, rm: real, rp: real, rn: real)
    requires quantity as real == rq * SCALE as real && multiplier as real == rm * SCALE as real
    requires price as real == rp * SCALE as real && notional as real == rn * SCALE as real
    ensures quantity * multiplier * (price * 999) < notional * SCALE * SCALE * 1000 <==>
            Times(rp * 0.999, Times(rq, rm)) < rn
  {
    var s := SCALE as real;
    var size := rq * rm;
    var value := rp * size;
    ProductReal(quantity, multiplier);
    ProductReal(quantity * multiplier, price * 999);
    assert quantity as real * multiplier as real == size * s * s by {
      assert (rq * s) * (rm * s) == rq * rm * s * s;
    }
    assert (price * 999) as real == rp * s * 999.0;
    assert (size * s * s) * (rp * s * 999.0) == value * s * s * s * 999.0 by {
      assert size * rp == value;
      assert (size * s * s) * (rp * s * 999.0) == (size * rp) * s * s * s * 999.0;
    }
    assert (notional * SCALE * SCALE * 1000) as real == rn * s * s * s * 1000.0;
    assert Times(rp * 0.999, Times(rq, rm)) == value * 0.999;
  }

  lemma ProductReal(a: nat, b: nat)
    ensures (a * b) as real == a as real * b as real
  {
  }

  lemma ScaledPositive(n: nat, r: real)
    requires n > 0 && n as real == r * SCALE as real
    ensures r > 0.0
  {
  }

  /** The integer checks accept exactly the sound orders. */
  lemma CheckIff(side: Side, quantity: nat, stop: nat, target: nat, minimum: nat, maximum: nat, lot: nat, tick: nat,
                 price: nat, multiplier: nat, notional: nat, rq: real, rs: real, rt: real, rmin: real, rmax: real,
                 rlot: real, rtick: real, rp: real, rm: real, rn: real)
    requires quantity > 0 && lot > 0 && tick > 0 && price > 0 && multiplier > 0
    requires quantity as real == rq * SCALE as real && stop as real == rs * SCALE as real
    requires target as real == rt * SCALE as real && minimum as real == rmin * SCALE as real
    requires maximum as real == rmax * SCALE as real && lot as real == rlot * SCALE as real
    requires tick as real == rtick * SCALE as real && price as real == rp * SCALE as real
    requires multiplier as real == rm * SCALE as real && notional as real == rn * SCALE as real
    ensures Check(side, quantity, stop, target, minimum, maximum, lot, tick, price, multiplier, notional).None? <==>
            Sound(side, rq, rs, rt, rmin, rmax, rlot, rtick, rp, rm, rn)
  {
    hide Times, MultipleOf, NearFill, SafeFill;
    MultipleIff(quantity, lot, rq, rlot);
    MultipleIff(stop, tick, rs, rtick);
    MultipleIff(target, tick, rt, rtick);
    ScaledPositive(price, rp);
    ScaledPositive(quantity, rq);
    ScaledPositive(multiplier, rm);
    PositiveProduct(rq, rm);
    FillsIff(side, rs, rt, Times(rq, rm), rn, rp);
    NotionalIff(quantity, multiplier, price, notional, rq, rm, rp, rn);
  }

  lemma PositiveProduct(a: real, b: real)
    requires a > 0.0 && b > 0.0
    ensures Times(a, b) > 0.0
  {
  }

  /** Every field of the order and the instrument denotes a positive decimal. */
  predicate Readable(o: Order, i: Instrument) {
    && Positive(o.quantity) && Positive(o.stop) && Positive(o.target)
    && Positive(i.minimumQuantity) && Positive(i.maximumQuantity) && Positive(i.lot) && Positive(i.tick)
    && Positive(i.referencePrice) && Positive(i.multiplier) && Positive(i.minimumNotional)
  }

  /**
   * Integer validation accepts an order exactly when every field is a positive decimal, the quantity is
   * within limits and a lot multiple, both prices are tick multiples, and for every fill within 0.1
   * percent of the reference price the stop and target lie strictly on their sides and the notional
   * reaches the minimum.
   */
  lemma ValidateIff(o: Order, i: Instrument)
    ensures Validate(o, i).None? <==>
            Readable(o, i) &&
            Sound(o.side, Value(o.quantity), Value(o.stop), Value(o.target), Value(i.minimumQuantity),
                  Value(i.maximumQuantity), Value(i.lot), Value(i.tick), Value(i.referencePrice),
                  Value(i.multiplier), Value(i.minimumNotional))
  {
    hide Decimal, Value, WellFormed, Check, Sound;
    DecimalExact(o.quantity);
    DecimalExact(o.stop);
    DecimalExact(o.target);
    DecimalExact(i.minimumQuantity);
    DecimalExact(i.maximumQuantity);
    DecimalExact(i.lot);
    DecimalExact(i.tick);
    DecimalExact(i.referencePrice);
    DecimalExact(i.multiplier);
    DecimalExact(i.minimumNotional);
    if Readable(o, i) {
      DecimalNonZero(o.quantity);
      DecimalNonZero(i.lot);
      DecimalNonZero(i.tick);
      DecimalNonZero(i.referencePrice);
      DecimalNonZero(i.multiplier);
      CheckIff(o.side, Decimal(o.quantity).value, Decimal(o.stop).value, Decimal(o.target).value,
               Decimal(i.minimumQuantity).value, Decimal(i.maximumQuantity).value, Decimal(i.lot).value,
               Decimal(i.tick).value, Decimal(i.referencePrice).value, Decimal(i.multiplier).value,
               Decimal(i.minimumNotional).value,
               Value(o.quantity), Value(o.stop), Value(o.target), Value(i.minimumQuantity), Value(i.maximumQuantity),
               Value(i.lot), Value(i.tick), Value(i.referencePrice), Value(i.multiplier), Value(i.minimumNotional));
    }
  }

  lemma DecimalNonZero(s: string)
    ensures Decimal(s).Some? ==> Decimal(s).value > 0
  {
  }

  // --- which problem is reported

  /** Stop and target lie strictly on their sides of every fill near the reference price. */
  ghost predicate OnSides(side: Side, stop: real, target: real, price: real) {
    forall fill :: NearFill(fill, price) ==> if side == Buy then stop < fill < target else target < fill < stop
  }

  lemma {:induction false} SidesIff(side: Side, stop: real, target: real, price: real)
    requires price > 0.0
    ensures OnSides(side, stop, target, price) <==>
            if side == Buy then stop < price * 0.999 && price * 1.001 < target
            else target < price * 0.999 && price * 1.001 < stop
  {
    assert NearFill(price * 0.999, price) && NearFill(price * 1.001, price);
  }

  /** The first fault of an order in exact rationals, in the order of the checks. */
  ghost function Fault(side: Side, quantity: real, stop: real, target: real, minimum: real, maximum: real, lot: real,
                       tick: real, price: real, size: real, notional: real): Option<Problem>
  {
    if !(minimum <= quantity <= maximum && MultipleOf(quantity, lot)) then Some(Quantity)
    else if !(MultipleOf(stop, tick) && MultipleOf(target, tick)) then Some(Increment)
    else if !OnSides(side, stop, target, price) then Some(Geometry)
    else if price * 0.999 * size < notional then Some(Notional)
    else None
  }

  lemma {:induction false} CheckExact(
    side: Side, quantity: nat, stop: nat, target: nat, minimum: nat, maximum: nat, lot: nat, tick: nat, price: nat,
    multiplier: nat, notional: nat, rq: real, rs: real, rt: real, rmin: real, rmax: real, rlot: real, rtick: real,
    rp: real, rm: real, rn: real)
    requires lot > 0 && tick > 0 && price > 0
    requires quantity as real == rq * SCALE as real && stop as real == rs * SCALE as real
    requires target as real == rt * SCALE as real && minimum as real == rmin * SCALE as real
    requires maximum as real == rmax * SCALE as real && lot as real == rlot * SCALE as real
    requires tick as real == rtick * SCALE as real && price as real == rp * SCALE as real
    requires multiplier as real == rm * SCALE as real && notional as real == rn * SCALE as real
    ensures Check(side, quantity, stop, target, minimum, maximum, lot, tick, price, multiplier, notional) ==
            Fault(side, rq, rs, rt, rmin, rmax, rlot, rtick, rp, rq * rm, rn)
  {
    assert Times(rp * 0.999, Times(rq, rm)) == rp * 0.999 * (rq * rm);
    hide Times, MultipleOf, OnSides;
    MultipleIff(quantity, lot, rq, rlot);
    MultipleIff(stop, tick, rs, rtick);
    MultipleIff(target, tick, rt, rtick);
    ScaledPositive(price, rp);
    SidesIff(side, rs, rt, rp);
    NotionalIff(quantity, multiplier, price, notional, rq, rm, rp, rn);
  }

  /** The reported problem is exactly the first of: unreadable order, unreadable instrument, and the faults above. */
  lemma {:induction false} ProblemExact(o: Order, i: Instrument)
    ensures Validate(o, i) ==
            (if !(Positive(o.quantity) && Positive(o.stop) && Positive(o.target)) then Some(NotPositive)
             else if !Readable(o, i) then Some(Metadata)
             else Fault(o.side, Value(o.quantity), Value(o.stop), Value(o.target), Value(i.minimumQuantity),
                        Value(i.maximumQuantity), Value(i.lot), Value(i.tick), Value(i.referencePrice),
                        Value(o.quantity) * Value(i.multiplier), Value(i.minimumNotional)))
  {
    hide Decimal, Value, Check, Fault;
    DecimalExact(o.quantity);
    DecimalExact(o.stop);
    DecimalExact(o.target);
    DecimalExact(i.minimumQuantity);
    DecimalExact(i.maximumQuantity);
    DecimalExact(i.lot);
    DecimalExact(i.tick);
    DecimalExact(i.referencePrice);
    DecimalExact(i.multiplier);
    DecimalExact(i.minimumNotional);
    if Readable(o, i) {
      FaultExact(o, i);
    }
    hide Positive, WellFormed;
  }

  lemma {:induction false} FaultExact(o: Order, i: Instrument)
    requires Readable(o, i)
    ensures Validate(o, i) ==
            Fault(o.side, Value(o.quantity), Value(o.stop), Value(o.target), Value(i.minimumQuantity),
                  Value(i.maximumQuantity), Value(i.lot), Value(i.tick), Value(i.referencePrice),
                  Value(o.quantity) * Value(i.multiplier), Value(i.minimumNotional))
  {
    hide Decimal, Value, WellFormed, Check, Fault;
    DecimalExact(o.quantity);
    DecimalExact(o.stop);
    DecimalExact(o.target);
    DecimalExact(i.minimumQuantity);
    DecimalExact(i.maximumQuantity);
    DecimalExact(i.lot);
    DecimalExact(i.tick);
    DecimalExact(i.referencePrice);
    DecimalExact(i.multiplier);
    DecimalExact(i.minimumNotional);
    DecimalNonZero(i.lot);
    DecimalNonZero(i.tick);
    DecimalNonZero(i.referencePrice);
    CheckExact(o.side, Decimal(o.quantity).value, Decimal(o.stop).value, Decimal(o.target).value,
               Decimal(i.minimumQuantity).value, Decimal(i.maximumQuantity).value, Decimal(i.lot).value,
               Decimal(i.tick).value, Decimal(i.referencePrice).value, Decimal(i.multiplier).value,
               Decimal(i.minimumNotional).value,
               Value(o.quantity), Value(o.stop), Value(o.target), Value(i.minimumQuantity), Value(i.maximumQuantity),
               Value(i.lot), Value(i.tick), Value(i.referencePrice), Value(i.multiplier), Value(i.minimumNotional));
  }

  // --- decimal notation

  /** Digits count by place: a digit is its own value, and appending digits shifts by a power of ten. */
  lemma {:induction false} PlaceValue(a: string, b: string, c: char)
    requires Digits(a) && Digits(b)
    ensures Digits(a + b) && NatOf(a + b) == NatOf(a) * Pow10(|b|) + NatOf(b)
    ensures '0' <= c <= '9' ==> NatOf([c]) == c as int - 48
    ensures Pow10(0) == 1 && Pow10(|b| + 1) == 10 * Pow10(|b|)
    decreases |b|
  {
    assert [c][..0] == [];
    if b == "" {
      assert a + b == a;
    } else {
      var n := |b| - 1;
      PlaceValue(a, b[..n], c);
      assert (a + b)[..|a + b| - 1] == a + b[..n];
      assert Pow10(|b|) == 10 * Pow10(n);
      PlaceStep(NatOf(a), Pow10(n), NatOf(b[..n]), b[n] as int - '0' as int);
      hide Pow10, NatOf;
    }
  }

  lemma {:induction false} PlaceStep(x: nat, p: nat, y: nat, digit: int)
    ensures 10 * (x * p + y) + digit == x * (10 * p) + (10 * y + digit)
  {
    Regroup(x, p);
    assert 10 * (x * p + y) == 10 * (x * p) + 10 * y;
    assert 10 * (x * p) == 10 * x * p;
  }

  /** A decimal is one to 24 digits, alone or with a point and one to 18 more, and denotes both parts together. */
  lemma {:induction false} NotationExact(s: string)
    ensures WellFormed(s) <==>
            || (1 <= |s| <= 24 && Digits(s))
            || exists w: string, f: string ::
                 s == w + "." + f && 1 <= |w| <= 24 && 1 <= |f| <= 18 && Digits(w) && Digits(f)
  {
    if WellFormed(s) && Point(s) < |s| {
      assert s == Whole(s) + "." + Fraction(s);
    }
    if 1 <= |s| <= 24 && Digits(s) {
      assert Point(s) == |s| && s[..|s|] == s;
    }
    if w: string, f: string :|
       s == w + "." + f && 1 <= |w| <= 24 && 1 <= |f| <= 18 && Digits(w) && Digits(f) {
      PointAfter(w, f);
    }
  }

  lemma {:induction false} PointAfter(w: string, f: string)
    requires Digits(w)
    ensures Whole(w + "." + f) == w && Fraction(w + "." + f) == f && Point(w + "." + f) == |w|
  {
    var s := w + "." + f;
    assert forall k :: 0 <= k < |w| ==> s[k] == w[k] && w[k] != '.';
    assert s[|w|] == '.';
    assert s[..|w|] == w && s[|w| + 1..] == f;
  }

  lemma {:induction false} ValueExact(w: string, f: string)
    requires 1 <= |w| <= 24 && 1 <= |f| <= 18 && Digits(w) && Digits(f)
    ensures WellFormed(w + "." + f) && WellFormed(w) && Pow10(|f|) > 0
    ensures Value(w) == NatOf(w) as real
    ensures Value(w + "." + f) == NatOf(w) as real + NatOf(f) as real / Pow10(|f|) as real
  {
    PointAfter(w, f);
    PowPositive(|f|);
    assert Point(w) == |w| && w[..|w|] == w;
    assert NatOf("") == 0;
  }
}
