/**
 * src/autodiff.hpp: forward-mode automatic differentiation. An
 * `AutoDiff<N>` is a value together with its gradient with respect to `N`
 * independent variables; every operator returns a new pair computed from
 * its arguments by the sum, product and quotient rules. `N` is the length
 * of `deriv`; the binary operators combine numbers of the same `N`.
 */
module AutoDiffs {
  import Vectors

  /** `AutoDiff<N>`: `m_val` and `m_deriv`, with `N == |deriv|`. */
  datatype AutoDiff = AutoDiff(value: real, deriv: seq<real>)

  /** The default constructor `AutoDiff()`: value 0, gradient all zero. */
  function Default(n: nat): (r: AutoDiff)
    ensures r.value == 0.0 && r.deriv == Vectors.Zero(n)
  {
    AutoDiff(0.0, seq(n, _ => 0.0))
  }

  /**
   * `AutoDiff(v)`: a constant. Entry `i` of the gradient is `derivative(v, i)`,
   * which is 0 for a plain number, so a constant does not depend on any variable.
   */
  function Const(n: nat, v: real): (r: AutoDiff)
    ensures r.value == v && |r.deriv| == n
    ensures Vectors.IsZero(r.deriv)
  {
    AutoDiff(v, seq(n, _ => 0.0))
  }

  /** `AutoDiff(Variable<I>(v))`: the independent variable number `I`, with gradient `e_I`. */
  function Variable(n: nat, idx: nat, v: real): (r: AutoDiff)
    requires idx < n
    ensures r.value == v && |r.deriv| == n
    ensures r.deriv[idx] == 1.0
    ensures forall i :: 0 <= i < n && i != idx ==> r.deriv[i] == 0.0
  {
    AutoDiff(v, seq(n, i => if i == idx then 1.0 else 0.0))
  }

  /** `a + b`: values and gradients add. */
  function Add(a: AutoDiff, b: AutoDiff): (r: AutoDiff)
    requires |a.deriv| == |b.deriv|
    ensures r.value == a.value + b.value
    ensures r.deriv == Vectors.Add(a.deriv, b.deriv)
  {
    AutoDiff(a.value + b.value, seq(|a.deriv|, i requires 0 <= i < |a.deriv| => a.deriv[i] + b.deriv[i]))
  }

  /** `s + b` for a plain number `s`: `AutoDiff(s) + b`. */
  function AddScalar(s: real, b: AutoDiff): (r: AutoDiff)
    ensures |r.deriv| == |b.deriv|
  {
    Add(Const(|b.deriv|, s), b)
  }

  /** `a * b`: the product rule `a' * b + a * b'`. */
  function Mul(a: AutoDiff, b: AutoDiff): (r: AutoDiff)
    requires |a.deriv| == |b.deriv|
    ensures |r.deriv| == |a.deriv|
  {
    AutoDiff(a.value * b.value,
      seq(|a.deriv|, i requires 0 <= i < |a.deriv| => a.deriv[i] * b.value + a.value * b.deriv[i]))
  }

  /** `a - b`: values and gradients subtract. */
  function Sub(a: AutoDiff, b: AutoDiff): (r: AutoDiff)
    requires |a.deriv| == |b.deriv|
    ensures |r.deriv| == |a.deriv|
  {
    AutoDiff(a.value - b.value, seq(|a.deriv|, i requires 0 <= i < |a.deriv| => a.deriv[i] - b.deriv[i]))
  }

  /** Unary `-a`: value and every gradient entry negated. */
  function Neg(a: AutoDiff): (r: AutoDiff)
    ensures |r.deriv| == |a.deriv|
  {
    AutoDiff(-a.value, seq(|a.deriv|, i requires 0 <= i < |a.deriv| => -a.deriv[i]))
  }

  /**
   * `a / b`: the quotient rule `(a' * b - a * b') / b^2`. A zero `b.value`
   * divides by zero, which the model does not allow.
   */
  function Div(a: AutoDiff, b: AutoDiff): (r: AutoDiff)
    requires |a.deriv| == |b.deriv| && b.value != 0.0
    ensures |r.deriv| == |a.deriv|
  {
    SquareNonZero(b.value);
    AutoDiff(a.value / b.value,
      seq(|a.deriv|, i requires 0 <= i < |a.deriv| =>
        (a.deriv[i] * b.value - a.value * b.deriv[i]) / (b.value * b.value)))
  }

  lemma SquareNonZero(x: real)
    requires x != 0.0
    ensures x * x != 0.0
  {
    if x > 0.0 {
      assert x * x > 0.0;
    } else {
      assert (-x) * (-x) > 0.0;
    }
  }

  // ---------------------------------------------------------------------
  // Properties
  // ---------------------------------------------------------------------

  /** The two constructors of a number without dependence agree on 0. */
  lemma DefaultIsConstZero(n: nat)
    ensures Default(n) == Const(n, 0.0)
  {
  }

  /** Adding a plain number shifts the value and leaves the gradient alone. */
  lemma AddScalarShifts(s: real, b: AutoDiff)
    ensures AddScalar(s, b).value == s + b.value
    ensures AddScalar(s, b).deriv == b.deriv
  {
    var r := AddScalar(s, b);
    assert forall i :: 0 <= i < |b.deriv| ==> r.deriv[i] == b.deriv[i];
  }

  /** `a - b` is `a + (-b)`, value and gradient. */
  lemma SubIsAddNeg(a: AutoDiff, b: AutoDiff)
    requires |a.deriv| == |b.deriv|
    ensures Sub(a, b) == Add(a, Neg(b))
  {
    var l, r := Sub(a, b), Add(a, Neg(b));
    assert forall i :: 0 <= i < |a.deriv| ==> l.deriv[i] == r.deriv[i];
  }

  /** Negating twice gives the number back. */
  lemma NegNeg(a: AutoDiff)
    ensures Neg(Neg(a)) == a
  {
    var r := Neg(Neg(a));
    assert forall i :: 0 <= i < |a.deriv| ==> r.deriv[i] == a.deriv[i];
  }

  /** Addition and multiplication commute. */
  lemma Commute(a: AutoDiff, b: AutoDiff)
    requires |a.deriv| == |b.deriv|
    ensures Add(a, b) == Add(b, a)
    ensures Mul(a, b) == Mul(b, a)
  {
    var p, q := Mul(a, b), Mul(b, a);
    assert forall i :: 0 <= i < |a.deriv| ==> p.deriv[i] == q.deriv[i];
    var s, t := Add(a, b), Add(b, a);
    assert forall i :: 0 <= i < |a.deriv| ==> s.deriv[i] == t.deriv[i];
  }

  /** The product rule distributes over sums, as multiplication does. */
  lemma Distributes(a: AutoDiff, b: AutoDiff, c: AutoDiff)
    requires |a.deriv| == |b.deriv| == |c.deriv|
    ensures Mul(a, Add(b, c)) == Add(Mul(a, b), Mul(a, c))
  {
    var l, r := Mul(a, Add(b, c)), Add(Mul(a, b), Mul(a, c));
    forall i | 0 <= i < |a.deriv| ensures l.deriv[i] == r.deriv[i] {
      DistributesEntry(a.value, a.deriv[i], b.value, b.deriv[i], c.value, c.deriv[i]);
    }
    DistributesEntry(a.value, 0.0, b.value, 0.0, c.value, 0.0);
  }

  lemma DistributesEntry(av: real, ad: real, bv: real, bd: real, cv: real, cd: real)
    ensures ad * (bv + cv) + av * (bd + cd) == (ad * bv + av * bd) + (ad * cv + av * cd)
    ensures av * (bv + cv) == av * bv + av * cv
  {
  }

  /** Multiplying by a constant scales value and gradient. */
  lemma MulConst(n: nat, c: real, a: AutoDiff)
    requires |a.deriv| == n
    ensures Mul(Const(n, c), a) == AutoDiff(c * a.value, Vectors.Scale(c, a.deriv))
    ensures Mul(a, Const(n, c)) == AutoDiff(a.value * c, Vectors.Scale(c, a.deriv))
  {
    var l, r := Mul(Const(n, c), a), Mul(a, Const(n, c));
    var s := Vectors.Scale(c, a.deriv);
    assert forall i :: 0 <= i < n ==> l.deriv[i] == s[i];
    assert forall i :: 0 <= i < n ==> r.deriv[i] == s[i];
  }

  /** Dividing by a non-zero constant `k` scales value and gradient by `1/k`. */
  lemma DivConst(n: nat, k: real, a: AutoDiff)
    requires |a.deriv| == n && k != 0.0
    ensures Div(a, Const(n, k)) == AutoDiff(a.value / k, Vectors.Scale(1.0 / k, a.deriv))
  {
    var l := Div(a, Const(n, k));
    var s := Vectors.Scale(1.0 / k, a.deriv);
    forall i | 0 <= i < n ensures l.deriv[i] == s[i] {
      DivConstEntry(a.value, a.deriv[i], k);
    }
  }

  lemma DivConstEntry(av: real, ad: real, k: real)
    requires k != 0.0
    ensures (ad * k - av * 0.0) / (k * k) == 1.0 / k * ad
  {
    assert (ad * k) / (k * k) == ad / k;
  }

  /** Adding the constant 0 changes nothing. */
  lemma AddZero(a: AutoDiff)
    ensures Add(a, Const(|a.deriv|, 0.0)) == a
  {
    var r := Add(a, Const(|a.deriv|, 0.0));
    assert forall i :: 0 <= i < |a.deriv| ==> r.deriv[i] == a.deriv[i];
  }

  /** `-a` is the additive inverse: `a + (-a)` is the constant 0. */
  lemma AddNeg(a: AutoDiff)
    ensures Add(a, Neg(a)) == Const(|a.deriv|, 0.0)
  {
    var r, z := Add(a, Neg(a)), Const(|a.deriv|, 0.0);
    assert forall i :: 0 <= i < |a.deriv| ==> r.deriv[i] == z.deriv[i];
  }

  /**
   * The product rule on two independent variables `e_i` and `e_j` at values
   * `x` and `y`: value `x*y`, and the gradient `y*e_i + x*e_j`. Together with
   * `Distributes`, `Commute` and `MulConst` this fixes `*` on all numbers,
   * since every number is a constant plus multiples of the variables.
   */
  lemma MulVariables(n: nat, i: nat, j: nat, x: real, y: real)
    requires i < n && j < n
    ensures Mul(Variable(n, i, x), Variable(n, j, y)).value == x * y
    ensures forall k :: 0 <= k < n ==>
      Mul(Variable(n, i, x), Variable(n, j, y)).deriv[k] == (if k == i then y else 0.0) + (if k == j then x else 0.0)
  {
  }

  /** The square of a variable at 0 has value and gradient 0: `(x^2)' = 2x`. */
  lemma SquareAtZero(n: nat, i: nat)
    requires i < n
    ensures Mul(Variable(n, i, 0.0), Variable(n, i, 0.0)) == Const(n, 0.0)
  {
    var r, z := Mul(Variable(n, i, 0.0), Variable(n, i, 0.0)), Const(n, 0.0);
    MulVariables(n, i, i, 0.0, 0.0);
    assert forall k :: 0 <= k < n ==> r.deriv[k] == z.deriv[k];
  }

  /** `x * b == y * b` with `b != 0` gives `x == y`. */
  lemma Cancel(x: real, y: real, b: real)
    requires b != 0.0 && x * b == y * b
    ensures x == y
  {
    assert (x - y) * b == 0.0;
  }

  /** One gradient entry of `(a / b) * b`. */
  lemma MulDivEntry(av: real, ad: real, bv: real, bd: real)
    requires bv != 0.0
    ensures (ad * bv - av * bd) / (bv * bv) * bv + av / bv * bd == ad
  {
    SquareNonZero(bv);
    var q, p := (ad * bv - av * bd) / (bv * bv), av / bv;
    assert q * (bv * bv) == ad * bv - av * bd;
    assert p * bv == av;
    var e := q * bv + p * bd;
    assert e * bv == q * (bv * bv) + (p * bv) * bd;
    Cancel(e, ad, bv);
  }

  /** Multiplying by `b` with `b.value != 0` is injective. */
  lemma MulCancel(p: AutoDiff, a: AutoDiff, b: AutoDiff)
    requires |p.deriv| == |a.deriv| == |b.deriv| && b.value != 0.0
    requires Mul(p, b) == Mul(a, b)
    ensures p == a
  {
    var l, r := Mul(p, b), Mul(a, b);
    Cancel(p.value, a.value, b.value);
    forall i | 0 <= i < |a.deriv| ensures p.deriv[i] == a.deriv[i] {
      assert l.deriv[i] == r.deriv[i];
      Cancel(p.deriv[i], a.deriv[i], b.value);
    }
  }

  /** Division is undone by multiplication: `(a / b) * b == a` for `b.value != 0`. */
  lemma MulUndoesDiv(a: AutoDiff, b: AutoDiff)
    requires |a.deriv| == |b.deriv| && b.value != 0.0
    ensures Mul(Div(a, b), b) == a
  {
    var r := Mul(Div(a, b), b);
    forall i | 0 <= i < |a.deriv| ensures r.deriv[i] == a.deriv[i] {
      MulDivEntry(a.value, a.deriv[i], b.value, b.deriv[i]);
    }
    assert a.value / b.value * b.value == a.value;
  }

  /** Multiplication is undone by division: `(a * b) / b == a` for `b.value != 0`. */
  lemma DivUndoesMul(a: AutoDiff, b: AutoDiff)
    requires |a.deriv| == |b.deriv| && b.value != 0.0
    ensures Div(Mul(a, b), b) == a
  {
    var m := Mul(a, b);
    MulUndoesDiv(m, b);
    MulCancel(Div(m, b), a, b);
  }

  /**
   * The values of the operator checks with `x = Variable<0>(2)` and
   * `y = Variable<1>(4)` in two variables.
   */
  lemma OperatorChecks()
    ensures Sub(Variable(2, 0, 2.0), Variable(2, 1, 4.0)) == AutoDiff(-2.0, [1.0, -1.0])
    ensures Neg(Variable(2, 0, 2.0)) == AutoDiff(-2.0, [-1.0, 0.0])
    ensures Div(Variable(2, 0, 2.0), Variable(2, 1, 4.0)) == AutoDiff(0.5, [0.25, -0.125])
  {
    var x, y := Variable(2, 0, 2.0), Variable(2, 1, 4.0);
    var s, n, d := Sub(x, y), Neg(x), Div(x, y);
    assert s.deriv == [s.deriv[0], s.deriv[1]];
    assert n.deriv == [n.deriv[0], n.deriv[1]];
    assert d.deriv[0] == (1.0 * 4.0 - 2.0 * 0.0) / 16.0;
    assert d.deriv[1] == (0.0 * 4.0 - 2.0 * 1.0) / 16.0;
    assert d.deriv == [d.deriv[0], d.deriv[1]];
  }
}
