/** Shared vocabulary of both particle engines: an optional value, the ranges of
    the browser's Math.random, Math.sin and Math.cos, and what it means for a
    function to be Math.sqrt. The engines receive these library functions as
    parameters; the model never computes a sine or a square root itself. */
module Common {

  datatype Option<+T> = None | Some(value: T)

  /** A filled circle an engine draws on its canvas. */
  datatype Disc = Disc(x: real, y: real, radius: real)

  /** A result of Math.random(): a real in [0, 1). */
  type Unit = r: real | 0.0 <= r < 1.0

  /** A result of Math.sin or Math.cos: a real in [-1, 1]. */
  type Wave = r: real | -1.0 <= r <= 1.0

  /** Math.sqrt on the non-negative reals. */
  ghost predicate IsSqrt(sqrt: real -> real) {
    forall v :: v >= 0.0 ==> sqrt(v) >= 0.0 && sqrt(v) * sqrt(v) == v
  }

  function Abs(v: real): (r: real)
    ensures r >= 0.0 && (r == v || r == -v)
  {
    if v < 0.0 then -v else v
  }

  function Sq(v: real): (r: real)
    ensures r >= 0.0
  {
    v * v
  }

  /** Math.max of two reals. */
  function Max(a: real, b: real): (r: real)
    ensures r >= a && r >= b && (r == a || r == b)
  {
    if a >= b then a else b
  }

  /** A distance d with d >= 0 and d * d == sq lies below the bound exactly when
      sq lies below the bound's square: the comparison the engines make on a
      square root can be read without the square root. */
  lemma RootBelow(d: real, sq: real, bound: real)
    requires d >= 0.0 && d * d == sq && bound > 0.0
    ensures d < bound <==> sq < bound * bound
  {
    if d < bound {
      calc {
        sq;
      == d * d;
      <= d * bound;
      <  bound * bound;
      }
    } else {
      calc {
        sq;
      == d * d;
      >= d * bound;
      >= bound * bound;
      }
    }
  }

  /** Concatenation regroups freely. */
  lemma Regroup<T>(a: seq<T>, b: seq<T>, c: seq<T>)
    ensures a + (b + c) == (a + b) + c
  {
  }

  /** Nothing before a sequence leaves it as it is. */
  lemma EmptyFirst<T>(s: seq<T>)
    ensures [] + s == s
  {
  }
}
