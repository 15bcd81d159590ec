/**
 * The helpers lib/coreExtensions.js patches onto JavaScript numbers (`mod`, `div`, `times`) and
 * its `assoc` object merge. JavaScript's `%` truncates toward zero (the remainder has the sign of
 * the dividend), unlike Dafny's Euclidean `%`, so it is written out as `JsRem`.
 */
module CoreExtensions {

  function Abs(n: int): nat { if n < 0 then -n else n }

  /** JavaScript `a % b` on integers. */
  function JsRem(a: int, b: int): (r: int)
    requires b != 0
    ensures Abs(r) < Abs(b)
    ensures a >= 0 ==> r >= 0
    ensures a < 0 ==> r <= 0
  {
    if a >= 0 then Abs(a) % Abs(b) else -(Abs(a) % Abs(b))
  }

  /** `JsRem` is the remainder of a division whose quotient is rounded toward zero. */
  lemma JsRemIsRemainder(a: int, b: int)
    requires b != 0
    ensures exists q: int :: a == q * b + JsRem(a, b)
  {
    var m := Abs(a) % Abs(b);
    var q := Abs(a) / Abs(b);
    assert Abs(a) == q * Abs(b) + m;
    if a >= 0 {
      assert a == (if b > 0 then q else -q) * b + JsRem(a, b);
    } else {
      assert a == (if b > 0 then -q else q) * b + JsRem(a, b);
    }
  }

  /** `n.mod(arg)`: for a positive `arg`, any `n` from `-arg` up wraps into [0, arg), and a
      non-negative `n` gives its true remainder; further below, the result keeps the sign of the
      dividend, in (-arg, 0]. */
  function Mod(n: int, arg: int): (r: int)
    requires arg != 0
    ensures arg > 0 && n >= -arg ==> 0 <= r < arg
    ensures arg > 0 && n >= 0 ==> r == n % arg
    ensures arg > 0 && n < -arg ==> -arg < r <= 0
  {
    if n >= 0 then JsRem(n, arg) else JsRem(n + arg, arg)
  }

  /** For a non-negative `n` and positive `arg`, `mod` is the remainder, in [0, arg). */
  lemma ModOfNonNegative(n: int, arg: int)
    requires n >= 0 && arg > 0
    ensures 0 <= Mod(n, arg) < arg
    ensures Mod(n, arg) == n % arg
  {
  }

  /** A negative `n` no further below zero than `-arg` wraps to `n + arg`, in [0, arg). */
  lemma ModOfSmallNegative(n: int, arg: int)
    requires arg > 0 && -arg <= n < 0
    ensures Mod(n, arg) == n + arg
    ensures 0 <= Mod(n, arg) < arg
  {
  }

  /** Within one `arg` of [0, arg), `mod` wraps exactly once: `arg` itself gives 0 and a negative
      `n` gives `n + arg`. */
  lemma ModWrapsOnce(n: int, arg: int)
    requires arg > 0 && -arg <= n <= arg
    ensures Mod(n, arg) == if n == arg then 0 else if n < 0 then n + arg else n
  {
    if n == arg {
      SelfRemainder(arg);
    } else if n >= 0 {
      SmallRemainder(n, arg);
    } else {
      SmallRemainder(n + arg, arg);
      assert Mod(n, arg) == JsRem(n + arg, arg);
    }
  }

  /** A number in [0, b) is its own remainder: the quotient can only be 0. */
  lemma SmallRemainder(k: int, b: int)
    requires 0 <= k < b
    ensures k % b == k && Abs(k) % Abs(b) == k
  {
    var q, r := k / b, k % b;
    assert k == q * b + r && 0 <= r < b;
    ProductBounds(q, b);
  }

  lemma SelfRemainder(b: int)
    requires b > 0
    ensures b % b == 0 && Abs(b) % Abs(b) == 0
  {
    var q, r := b / b, b % b;
    assert b == q * b + r && 0 <= r < b;
    ProductBounds(q, b);
  }

  /** Multiples of a positive `b` are spaced `b` apart. */
  lemma {:induction false} ProductBounds(q: int, b: int)
    requires b > 0
    ensures q >= 2 ==> q * b >= 2 * b
    ensures q >= 1 ==> q * b >= b
    ensures q <= 0 ==> q * b <= 0
    ensures q <= -1 ==> q * b <= -b
    decreases if q >= 0 then q else -q
  {
    if q > 0 {
      ProductBounds(q - 1, b);
      assert q * b == (q - 1) * b + b;
    } else if q < 0 {
      ProductBounds(q + 1, b);
      assert q * b == (q + 1) * b - b;
    }
  }

  /** Below `-arg` the result keeps the dividend's sign: `(-7).mod(3)` is -1, not 2. */
  lemma ModOfFarNegative()
    ensures Mod(-7, 3) == -1
    ensures Mod(-4, 2) == 0
  {
  }

  /** `n.div(arg)`: `Math.floor(n / arg)`. */
  function Div(n: real, arg: real): (r: int)
    requires arg != 0.0
    ensures r as real <= n / arg < r as real + 1.0
  {
    (n / arg).Floor
  }

  /** On integers with a positive divisor, `div` agrees with integer division. */
  lemma DivOfIntegers(a: int, b: int)
    requires b > 0
    ensures Div(a as real, b as real) == a / b
  {
    var q, m := a / b, a % b;
    assert a == q * b + m && 0 <= m < b;
    assert (a as real) == (q as real) * (b as real) + (m as real);
    assert (a as real) / (b as real) == (q as real) + (m as real) / (b as real);
    assert 0.0 <= (m as real) / (b as real) < 1.0;
    FloorUnique((a as real) / (b as real), q);
  }

  lemma FloorUnique(v: real, k: int)
    requires k as real <= v < k as real + 1.0
    ensures v.Floor == k
  {
  }

  /** `n.times(fn)`: `[fn(0), fn(1), ...]`, one call per integer below `n`. */
  method Times<T>(n: real, fn: int -> T) returns (result: seq<T>)
    ensures |result| as real >= n
    ensures |result| == 0 || ((|result| - 1) as real) < n
    ensures forall k :: 0 <= k < |result| ==> result[k] == fn(k)
  {
    var i := 0;
    result := [];
    while (i as real) < n
      invariant i == |result|
      invariant i == 0 || ((i - 1) as real) < n
      invariant forall k :: 0 <= k < i ==> result[k] == fn(k)
      decreases n.Floor + 1 - i
    {
      result := result + [fn(i)];
      i := i + 1;
    }
  }

  /** A JavaScript object as a mutable key/value store. */
  class JsObject<V> {
    var props: map<string, V>

    constructor (props: map<string, V>)
      ensures this.props == props
    {
      this.props := props;
    }
  }

  /** `assoc(o, i)`: copies every key of `i` into `o` in place and returns `o` itself. */
  method Assoc<V>(o: JsObject<V>, i: map<string, V>) returns (r: JsObject<V>)
    modifies o
    ensures r == o
    ensures o.props == old(o.props) + i
    ensures forall k :: k in i ==> k in o.props && o.props[k] == i[k]
    ensures forall k :: k !in i && k in old(o.props) ==> k in o.props && o.props[k] == old(o.props)[k]
    ensures o.props.Keys == old(o.props).Keys + i.Keys
  {
    var pending := i.Keys;
    while pending != {}
      invariant pending <= i.Keys
      invariant o.props == old(o.props) + (map k | k in i && k !in pending :: i[k])
      decreases pending
    {
      var k :| k in pending;
      o.props := o.props[k := i[k]];
      pending := pending - {k};
    }
    assert (map k | k in i && k !in pending :: i[k]) == i;
    r := o;
  }
}
