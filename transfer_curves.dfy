/** The transfer-curve formulas of ColorTransfer (color_space.py lines 185-279).

    Real powers are not computed: every formula takes the power function `pow`
    as a parameter, and every property is proved for each `pow`, or for each
    `pow` that has the named property of the real power x^e. */
module Curves {

  function Abs(x: real): real
  {
    if x < 0.0 then -x else x
  }

  /** numpy.sign: -1, 0 or 1. */
  function Sign(x: real): real
  {
    if x < 0.0 then -1.0 else if x == 0.0 then 0.0 else 1.0
  }

  /** (base, exponent) |-> base^exponent. */
  type Power = (real, real) -> real

  /** A positive base has a positive power. */
  ghost predicate Positive(pow: Power)
  {
    forall b, e :: b > 0.0 ==> pow(b, e) > 0.0
  }

  /** (b^e)^(1/e) == b for a positive base and exponent. */
  ghost predicate Invertible(pow: Power)
  {
    forall b, e :: b > 0.0 && e > 0.0 ==> pow(pow(b, e), 1.0 / e) == b
  }

  /** b |-> b^e is increasing on positive bases for a positive exponent. */
  ghost predicate Increasing(pow: Power)
  {
    forall a, b, e :: 0.0 < a < b && e > 0.0 ==> pow(a, e) < pow(b, e)
  }

  /** One row (alpha, beta, gamma, delta) of the parametric family. */
  datatype Coeffs = Coeffs(alpha: real, beta: real, gamma: real, delta: real)

  /** The shape every row of the table has, and what the formulas need to be defined:
      no division by a zero delta or alpha, no exponent 1/0. */
  predicate WellFormed(c: Coeffs)
  {
    && c.alpha >= 1.0
    && c.beta >= 0.0
    && 0.0 < c.gamma < 1.0
    && c.delta >= 0.0
    && (c.beta > 0.0 ==> c.delta > 0.0)
  }

  // ---------------------------------------------------------------------------
  // The formulas as written

  /** de_linearize as written (lines 267-272): delta*x when |x| < beta, otherwise
      sign(x) * (alpha*|x|^gamma + alpha - 1). */
  function DeLinearizeAsWritten(c: Coeffs, pow: Power, x: real): real
  {
    if Abs(x) < c.beta then c.delta * x
    else Sign(x) * (c.alpha * pow(Abs(x), c.gamma) + c.alpha - 1.0)
  }

  /** linearize as written (lines 274-279): x/delta when |x| < beta, otherwise
      sign(x) * ((|x| + alpha - 1) / alpha)^(1/gamma). */
  function LinearizeAsWritten(c: Coeffs, pow: Power, x: real): real
    requires WellFormed(c)
  {
    if Abs(x) < c.beta then x / c.delta
    else Sign(x) * pow((Abs(x) + c.alpha - 1.0) / c.alpha, 1.0 / c.gamma)
  }

  // ---------------------------------------------------------------------------
  // The formulas as intended: ITU-R BT.709 Part 1 item 1.2 and IEC 61966-2-1
  // clause 5.2 subtract (alpha - 1) when encoding, which is what the inverse
  // used by linearize undoes; and decoding switches at the code value beta*delta
  // where the encoder's linear segment ends (the comment at lines 190-192).

  /** Encodes linear light: delta*x on the linear segment |x| < beta, otherwise
      sign(x) * (alpha*|x|^gamma - (alpha - 1)). */
  function DeLinearize(c: Coeffs, pow: Power, x: real): real
  {
    if Abs(x) < c.beta then c.delta * x
    else Sign(x) * (c.alpha * pow(Abs(x), c.gamma) - (c.alpha - 1.0))
  }

  /** Decodes a code value: x/delta below beta*delta, otherwise
      sign(x) * ((|x| + alpha - 1) / alpha)^(1/gamma). */
  function Linearize(c: Coeffs, pow: Power, x: real): real
    requires WellFormed(c)
  {
    if Abs(x) < c.beta * c.delta then x / c.delta
    else Sign(x) * pow((Abs(x) + c.alpha - 1.0) / c.alpha, 1.0 / c.gamma)
  }

  // ---------------------------------------------------------------------------
  // Properties

  /** Every formula is odd: negative samples are handled as mirrored positive ones. */
  lemma Odd(c: Coeffs, pow: Power, x: real)
    requires WellFormed(c)
    ensures DeLinearizeAsWritten(c, pow, -x) == -DeLinearizeAsWritten(c, pow, x)
    ensures LinearizeAsWritten(c, pow, -x) == -LinearizeAsWritten(c, pow, x)
    ensures DeLinearize(c, pow, -x) == -DeLinearize(c, pow, x)
    ensures Linearize(c, pow, -x) == -Linearize(c, pow, x)
  {
    assert Abs(-x) == Abs(x) && Sign(-x) == -Sign(x);
    if c.delta != 0.0 {
      assert (-x) / c.delta == -(x / c.delta);
    }
  }

  /** The encoder's linear segment is decoded exactly, whatever `pow` is. */
  lemma LinearSegmentRoundTrip(c: Coeffs, pow: Power, x: real)
    requires WellFormed(c)
    requires Abs(x) < c.beta
    ensures Linearize(c, pow, DeLinearize(c, pow, x)) == x
  {
    var y := c.delta * x;
    assert Abs(y) == c.delta * Abs(x);
    assert c.delta * Abs(x) < c.delta * c.beta;
  }

  /** On the power segment, decoding undoes encoding for a `pow` with (b^e)^(1/e) == b,
      wherever the code keeps the sign of x and lands on the decoder's power segment. */
  lemma PowerSegmentRoundTrip(c: Coeffs, pow: Power, x: real)
    requires WellFormed(c) && Invertible(pow)
    requires Abs(x) >= c.beta
    requires Sign(DeLinearize(c, pow, x)) == Sign(x)
    requires Abs(DeLinearize(c, pow, x)) >= c.beta * c.delta
    ensures Linearize(c, pow, DeLinearize(c, pow, x)) == x
  {
    var y := DeLinearize(c, pow, x);
    if x != 0.0 {
      var p := pow(Abs(x), c.gamma);
      var m := c.alpha * p - (c.alpha - 1.0);
      EncoderPowerBranch(c, pow, x);
      SignKept(x, m);
      DecoderPowerBranch(c, pow, y);
      AffineInverse(c.alpha, Abs(y), p);
      assert pow(p, 1.0 / c.gamma) == Abs(x);
      SignedMagnitude(x, pow(p, 1.0 / c.gamma));
    }
  }

  /** The code of a power-segment sample keeps its sign and lies at or above the decoder's
      switch point beta*delta, for an increasing positive `pow`, when the encoder's power
      segment starts at or above that switch point (a pure power law has alpha == 1). */
  lemma PowerCodeAboveSwitch(c: Coeffs, pow: Power, x: real)
    requires WellFormed(c) && Positive(pow) && Increasing(pow)
    requires c.beta == 0.0 ==> c.alpha == 1.0
    requires c.beta > 0.0 ==> c.alpha * pow(c.beta, c.gamma) - (c.alpha - 1.0) >= c.beta * c.delta
    requires x != 0.0 && Abs(x) >= c.beta
    ensures Sign(DeLinearize(c, pow, x)) == Sign(x)
    ensures Abs(DeLinearize(c, pow, x)) >= c.beta * c.delta
  {
    var p := pow(Abs(x), c.gamma);
    var m := c.alpha * p - (c.alpha - 1.0);
    EncoderPowerBranch(c, pow, x);
    if c.beta > 0.0 {
      var q := pow(c.beta, c.gamma);
      if Abs(x) > c.beta {
        assert q < p;
      } else {
        assert Abs(x) == c.beta;
      }
      assert q <= p;
      AffineOrder(c.alpha, q, p, c.beta, c.delta);
    } else {
      assert m == p;
    }
    SignKept(x, m);
  }

  /** Decoding undoes encoding on the whole power segment, for an increasing invertible
      `pow`, when the encoder's power segment starts at or above the decoder's switch point. */
  lemma PowerSegmentRoundTripAboveSwitch(c: Coeffs, pow: Power, x: real)
    requires WellFormed(c) && Positive(pow) && Increasing(pow) && Invertible(pow)
    requires c.beta == 0.0 ==> c.alpha == 1.0
    requires c.beta > 0.0 ==> c.alpha * pow(c.beta, c.gamma) - (c.alpha - 1.0) >= c.beta * c.delta
    requires Abs(x) >= c.beta
    ensures Linearize(c, pow, DeLinearize(c, pow, x)) == x
  {
    if x != 0.0 {
      PowerCodeAboveSwitch(c, pow, x);
    } else {
      EncoderPowerBranch(c, pow, x);
    }
    PowerSegmentRoundTrip(c, pow, x);
  }

  /** Encoding undoes decoding: on the decoder's linear segment for every `pow`, and on
      its power segment for a `pow` with (b^e)^(1/e) == b wherever the decoded value keeps
      the sign of the code and lands on the encoder's power segment. */
  lemma EncodeDecodeRoundTrip(c: Coeffs, pow: Power, y: real)
    requires WellFormed(c) && Invertible(pow)
    requires Abs(y) >= c.beta * c.delta ==>
      Sign(Linearize(c, pow, y)) == Sign(y) && Abs(Linearize(c, pow, y)) >= c.beta
    ensures DeLinearize(c, pow, Linearize(c, pow, y)) == y
  {
    if Abs(y) < c.beta * c.delta {
      LinearBranchDecodes(c, y);
    } else if y != 0.0 {
      PowerBranchEncodes(c, pow, y);
    }
  }

  /** The as-written encoder keeps the sign of every sample, for a positive `pow`. */
  lemma DeLinearizeAsWrittenKeepsSign(c: Coeffs, pow: Power, x: real)
    requires WellFormed(c) && Positive(pow)
    ensures Sign(DeLinearizeAsWritten(c, pow, x)) == Sign(x)
  {
    if Abs(x) >= c.beta && x != 0.0 {
      assert pow(Abs(x), c.gamma) > 0.0;
    }
  }

  /** The intended encoder keeps the sign of every sample, for an increasing positive `pow`,
      when its power segment starts at a positive code (a pure power law has alpha == 1). */
  lemma DeLinearizeKeepsSign(c: Coeffs, pow: Power, x: real)
    requires WellFormed(c) && Positive(pow) && Increasing(pow)
    requires c.beta > 0.0 ==> c.alpha * pow(c.beta, c.gamma) - (c.alpha - 1.0) > 0.0
    requires c.beta == 0.0 ==> c.alpha == 1.0
    ensures Sign(DeLinearize(c, pow, x)) == Sign(x)
  {
    if Abs(x) >= c.beta && x != 0.0 {
      var p := pow(Abs(x), c.gamma);
      assert p > 0.0;
      if c.beta > 0.0 && Abs(x) > c.beta {
        assert pow(c.beta, c.gamma) < p;
      }
      assert c.alpha * p - (c.alpha - 1.0) > 0.0;
    }
  }

  /** Both decoders keep the sign of every code value, for a positive `pow`. */
  lemma LinearizeKeepsSign(c: Coeffs, pow: Power, y: real)
    requires WellFormed(c) && Positive(pow)
    ensures Sign(Linearize(c, pow, y)) == Sign(y)
    ensures Sign(LinearizeAsWritten(c, pow, y)) == Sign(y)
  {
    if y != 0.0 {
      var q := (Abs(y) + c.alpha - 1.0) / c.alpha;
      assert q > 0.0;
      assert pow(q, 1.0 / c.gamma) > 0.0;
    }
  }

  /** As written, encoding then decoding never returns a non-zero sample on the power
      segment of a curve with alpha > 1 (every row but the pure power laws): the encoder adds
      alpha - 1 where the decoder expects it subtracted. */
  lemma AsWrittenPowerSegmentRoundTripFails(c: Coeffs, pow: Power, x: real)
    requires WellFormed(c) && Positive(pow) && Invertible(pow)
    requires c.alpha > 1.0 && c.alpha - 1.0 >= c.beta
    requires x != 0.0 && Abs(x) >= c.beta
    ensures LinearizeAsWritten(c, pow, DeLinearizeAsWritten(c, pow, x)) != x
  {
    var p := pow(Abs(x), c.gamma);
    var y := DeLinearizeAsWritten(c, pow, x);
    AsWrittenCode(c, pow, x);
    var q := (Abs(y) + c.alpha - 1.0) / c.alpha;
    AddedTwice(c.alpha, p);
    PowUndo(pow, q, c.gamma);
    var r := pow(q, 1.0 / c.gamma);
    assert r != Abs(x);
    assert LinearizeAsWritten(c, pow, y) == Sign(x) * r;
    SignedMagnitude(x, r);
  }

  /** As written, decoding switches at beta rather than beta*delta, so a code of the encoder's
      linear segment at or above beta goes through the power law; it comes back as x only where
      the encoder's two segments give the same code. */
  lemma AsWrittenLinearSegmentRoundTrip(c: Coeffs, pow: Power, x: real)
    requires WellFormed(c) && Invertible(pow)
    requires 0.0 < Abs(x) < c.beta && c.delta * Abs(x) >= c.beta
    requires LinearizeAsWritten(c, pow, DeLinearize(c, pow, x)) == x
    ensures c.alpha * pow(Abs(x), c.gamma) - (c.alpha - 1.0) == c.delta * Abs(x)
  {
    var y := DeLinearize(c, pow, x);
    LinearCode(c, pow, x);
    var q := (Abs(y) + c.alpha - 1.0) / c.alpha;
    var p := pow(q, 1.0 / c.gamma);
    AsWrittenPowerBranch(c, pow, y);
    SignedMagnitude(x, p);
    PowUndo(pow, q, c.gamma);
    AffineUndo(c.alpha, Abs(y));
  }

  /** The code of a sample on the encoder's linear segment: delta*x, with the sign of x and
      magnitude delta*|x|. */
  lemma LinearCode(c: Coeffs, pow: Power, x: real)
    requires WellFormed(c) && 0.0 < Abs(x) < c.beta
    ensures DeLinearize(c, pow, x) == c.delta * x
    ensures Sign(DeLinearize(c, pow, x)) == Sign(x)
    ensures Abs(DeLinearize(c, pow, x)) == c.delta * Abs(x)
  {
    Scaled(c.delta, x);
  }

  /** The as-written decoder on its power segment. */
  lemma AsWrittenPowerBranch(c: Coeffs, pow: Power, y: real)
    requires WellFormed(c) && Abs(y) >= c.beta
    ensures LinearizeAsWritten(c, pow, y) == Sign(y) * pow((Abs(y) + c.alpha - 1.0) / c.alpha, 1.0 / c.gamma)
  {
  }

  /** The intended encoder on its power segment. */
  lemma EncoderPowerBranch(c: Coeffs, pow: Power, x: real)
    requires Abs(x) >= c.beta
    ensures DeLinearize(c, pow, x) == Sign(x) * (c.alpha * pow(Abs(x), c.gamma) - (c.alpha - 1.0))
  {
  }

  /** The intended decoder on its power segment. */
  lemma DecoderPowerBranch(c: Coeffs, pow: Power, y: real)
    requires WellFormed(c) && Abs(y) >= c.beta * c.delta
    ensures Linearize(c, pow, y) == Sign(y) * pow((Abs(y) + c.alpha - 1.0) / c.alpha, 1.0 / c.gamma)
  {
  }

  /** The decoder's (m + alpha - 1) / alpha undoes the encoder's m == alpha*p - (alpha - 1). */
  lemma AffineInverse(alpha: real, m: real, p: real)
    requires alpha >= 1.0 && m == alpha * p - (alpha - 1.0)
    ensures (m + alpha - 1.0) / alpha == p
  {
  }

  /** alpha*p - (alpha - 1) grows with p, for a non-negative alpha, so a code at or above a
      positive switch point beta*delta at q stays there, and positive, at every p >= q. */
  lemma AffineOrder(alpha: real, q: real, p: real, beta: real, delta: real)
    requires alpha >= 0.0 && q <= p && beta > 0.0 && delta > 0.0
    requires alpha * q - (alpha - 1.0) >= beta * delta
    ensures alpha * p - (alpha - 1.0) >= beta * delta
    ensures alpha * p - (alpha - 1.0) > 0.0
  {
    assert alpha * q <= alpha * p;
    assert beta * delta > 0.0;
  }

  /** Scaling by a positive factor scales the magnitude and keeps the sign. */
  lemma Scaled(d: real, x: real)
    requires d > 0.0
    ensures Abs(d * x) == d * Abs(x) && Sign(d * x) == Sign(x)
  {
  }

  /** For a non-zero x, sign(x) * p == x exactly when p is the magnitude of x. */
  lemma SignedMagnitude(x: real, p: real)
    requires x != 0.0
    ensures Sign(x) * p == x <==> p == Abs(x)
  {
  }

  /** sign(y) * p has the sign of a non-zero y exactly for a positive p, and then magnitude p. */
  lemma SignKept(y: real, p: real)
    requires y != 0.0
    ensures Sign(Sign(y) * p) == Sign(y) <==> p > 0.0
    ensures p > 0.0 ==> Abs(Sign(y) * p) == p
  {
  }

  /** The decoder's (a + alpha - 1) / alpha is positive and undone by alpha*q - (alpha - 1). */
  lemma AffineUndo(alpha: real, a: real)
    requires alpha >= 1.0 && a > 0.0
    ensures (a + alpha - 1.0) / alpha > 0.0
    ensures alpha * ((a + alpha - 1.0) / alpha) - (alpha - 1.0) == a
  {
  }

  /** Adding alpha - 1 when encoding and again when decoding leaves the decoder's base above p. */
  lemma AddedTwice(alpha: real, p: real)
    requires alpha > 1.0 && p > 0.0
    ensures ((alpha * p + alpha - 1.0) + alpha - 1.0) / alpha > p
  {
    assert ((alpha * p + alpha - 1.0) + alpha - 1.0) / alpha == p + 2.0 * (alpha - 1.0) / alpha;
  }

  /** The as-written code of a power-segment sample: sign(x) * (alpha*|x|^gamma + alpha - 1),
      on the as-written decoder's power segment. */
  lemma AsWrittenCode(c: Coeffs, pow: Power, x: real)
    requires WellFormed(c) && Positive(pow)
    requires c.alpha - 1.0 >= c.beta
    requires x != 0.0 && Abs(x) >= c.beta
    ensures pow(Abs(x), c.gamma) > 0.0
    ensures Sign(DeLinearizeAsWritten(c, pow, x)) == Sign(x)
    ensures Abs(DeLinearizeAsWritten(c, pow, x)) == c.alpha * pow(Abs(x), c.gamma) + c.alpha - 1.0
    ensures Abs(DeLinearizeAsWritten(c, pow, x)) >= c.beta
  {
    var p := pow(Abs(x), c.gamma);
    assert p > 0.0;
    var m := c.alpha * p + c.alpha - 1.0;
    assert DeLinearizeAsWritten(c, pow, x) == Sign(x) * m;
    SignKept(x, m);
  }

  /** The step of EncodeDecodeRoundTrip on the decoder's power segment. */
  lemma PowerBranchEncodes(c: Coeffs, pow: Power, y: real)
    requires WellFormed(c) && Invertible(pow)
    requires y != 0.0 && Abs(y) >= c.beta * c.delta
    requires Sign(Linearize(c, pow, y)) == Sign(y) && Abs(Linearize(c, pow, y)) >= c.beta
    ensures DeLinearize(c, pow, Linearize(c, pow, y)) == y
  {
    var q := (Abs(y) + c.alpha - 1.0) / c.alpha;
    var p := pow(q, 1.0 / c.gamma);
    var x := Linearize(c, pow, y);
    assert x == Sign(y) * p;
    SignKept(y, p);
    assert Abs(x) == p;
    AffineUndo(c.alpha, Abs(y));
    PowUndo(pow, q, c.gamma);
    assert pow(Abs(x), c.gamma) == q;
    var m := c.alpha * q - (c.alpha - 1.0);
    assert m == Abs(y);
    assert DeLinearize(c, pow, x) == Sign(y) * m;
    SignedMagnitude(y, m);
  }

  /** The decoder's linear segment lands on the encoder's linear segment and is undone there. */
  lemma LinearBranchDecodes(c: Coeffs, y: real)
    requires WellFormed(c) && Abs(y) < c.beta * c.delta
    ensures c.delta > 0.0 && Abs(y / c.delta) < c.beta && c.delta * (y / c.delta) == y
  {
    assert c.delta > 0.0;
    assert Abs(y / c.delta) == Abs(y) / c.delta;
  }

  lemma PowUndo(pow: Power, q: real, g: real)
    requires Invertible(pow) && q > 0.0 && g > 0.0
    ensures pow(pow(q, 1.0 / g), g) == q
  {
    assert 1.0 / (1.0 / g) == g;
  }

  // ---------------------------------------------------------------------------
  // The four families a ColorTransfer can be bound to

  /** The pair of formulas ColorTransfer.__init__ leaves bound: the class's parametric
      methods on a coefficient row, or the linear, PQ or HLG pair. */
  datatype Family = Parametric(coeffs: Coeffs) | Linear | Pq | Hlg

  /** The functions the model does not compute: the real power, and the PQ
      (SMPTE ST 2084) and HLG (ARIB STD-B67) formula pairs. */
  datatype Formulas = Formulas(
    pow: Power,
    pqDeLinearize: real -> real, pqLinearize: real -> real,
    hlgDeLinearize: real -> real, hlgLinearize: real -> real)

  predicate Sound(f: Family)
  {
    f.Parametric? ==> WellFormed(f.coeffs)
  }

  function FamilyDeLinearize(f: Family, ops: Formulas, x: real): real
  {
    match f
    case Parametric(c) => DeLinearize(c, ops.pow, x)
    case Linear => x
    case Pq => ops.pqDeLinearize(x)
    case Hlg => ops.hlgDeLinearize(x)
  }

  function FamilyLinearize(f: Family, ops: Formulas, x: real): real
    requires Sound(f)
  {
    match f
    case Parametric(c) => Linearize(c, ops.pow, x)
    case Linear => x
    case Pq => ops.pqLinearize(x)
    case Hlg => ops.hlgLinearize(x)
  }
}
