/** Shared vocabulary of the power-train model: the operating mode offered by the
    mode selector, an optional value, the angular speed and drag formulas every
    part of the program uses, and the real-valued min/max/sum helpers the Python
    code gets from the builtins `min`, `max` and `sum`. */
module Common {

  /** `math.pi` (and `np.pi`) as the double the Python code uses. */
  const Pi: real := 3.141592653589793

  /** The two entries of the mode selector ('eco' and 'boost'). */
  datatype Mode = Eco | Boost

  datatype Option<T> = None | Some(value: T)

  /** Angular speed in rad/s of a speed in rpm. */
  function AngularSpeed(rpm: real): real
  {
    rpm * 2.0 * Pi / 60.0
  }

  /** `0.5 * cd * air_density * frontal_area * v ** 2`: aerodynamic drag in N at a
      speed in m/s, the formula every drag computation of the program uses. */
  function HalfDrag(cd: real, airDensity: real, frontalArea: real, speedMs: real): (d: real)
    ensures cd >= 0.0 && airDensity >= 0.0 && frontalArea >= 0.0 ==> d >= 0.0
    ensures speedMs == 0.0 ==> d == 0.0
  {
    var k := 0.5 * cd * airDensity * frontalArea;
    var sq := speedMs * speedMs;
    ScaledSquare(k, speedMs, sq);
    k * sq
  }

  lemma ScaledSquare(k: real, v: real, sq: real)
    requires sq == v * v
    ensures k >= 0.0 ==> k * sq >= 0.0
    ensures v == 0.0 ==> k * sq == 0.0
  {
    assert sq >= 0.0;
  }

  lemma NonNegativeProduct(a: real, b: real)
    requires a >= 0.0 && b >= 0.0
    ensures a * b >= 0.0
  {
  }

  function Min(a: real, b: real): (r: real)
    ensures r <= a && r <= b
    ensures r == a || r == b
  {
    if a <= b then a else b
  }

  function Max(a: real, b: real): (r: real)
    ensures r >= a && r >= b
    ensures r == a || r == b
  {
    if a >= b then a else b
  }

  /** Sum of a sequence of reals, added left to right like Python's `sum`. */
  function Sum(s: seq<real>): real
  {
    if s == [] then 0.0 else Sum(s[..|s| - 1]) + s[|s| - 1]
  }

  lemma {:induction false} SumAppend(s: seq<real>, x: real)
    ensures Sum(s + [x]) == Sum(s) + x
  {
    assert (s + [x])[..|s + [x]| - 1] == s;
  }

  /** Largest element of a non-empty sequence, like Python's `max` on a list. */
  function SeqMax(s: seq<real>): (m: real)
    requires |s| > 0
    ensures m in s
    ensures forall i :: 0 <= i < |s| ==> s[i] <= m
  {
    if |s| == 1 then s[0]
    else
      var rest := SeqMax(s[1..]);
      assert forall i :: 1 <= i < |s| ==> s[i] == s[1..][i - 1];
      if s[0] >= rest then s[0] else rest
  }
}
