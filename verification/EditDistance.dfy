/** How far two lists of records are apart: single insertions and deletions. */
module EditDistance {

  function InsertAt<T>(a: seq<T>, i: nat, x: T): seq<T>
    requires i <= |a|
  {
    a[..i] + [x] + a[i..]
  }

  ghost predicate Inserted<T(!new)>(a: seq<T>, b: seq<T>) {
    exists i: nat, x :: i <= |a| && b == InsertAt(a, i, x)
  }

  lemma Insertion<T(!new)>(a: seq<T>, b: seq<T>) returns (i: nat, x: T)
    requires Inserted(a, b)
    ensures i <= |a| && b == InsertAt(a, i, x)
  {
    i, x :| i <= |a| && b == InsertAt(a, i, x);
  }

  /** One record more or one less. */
  ghost predicate Step<T(!new)>(a: seq<T>, b: seq<T>) {
    Inserted(a, b) || Inserted(b, a)
  }

  /** At most `d` insertions and deletions lead from one to the other. */
  ghost predicate Apart<T(!new)>(a: seq<T>, b: seq<T>, d: nat)
    decreases d
  {
    a == b || (d > 0 && exists c :: Step(a, c) && Apart(c, b, d - 1))
  }

  lemma StepIsApart<T(!new)>(a: seq<T>, b: seq<T>)
    requires Step(a, b)
    ensures Apart(a, b, 1)
  {
    assert Step(a, b) && Apart(b, b, 0);
  }

  lemma {:induction false} Monotone<T(!new)>(a: seq<T>, b: seq<T>, d: nat, e: nat)
    requires Apart(a, b, d) && d <= e
    ensures Apart(a, b, e)
    decreases d
  {
    if a != b {
      var c :| Step(a, c) && Apart(c, b, d - 1);
      Monotone(c, b, d - 1, e - 1);
    }
  }

  lemma {:induction false} Triangle<T(!new)>(a: seq<T>, b: seq<T>, c: seq<T>, d: nat, e: nat)
    requires Apart(a, b, d) && Apart(b, c, e)
    ensures Apart(a, c, d + e)
    decreases d
  {
    if a == b {
      Monotone(a, c, e, d + e);
    } else {
      var s :| Step(a, s) && Apart(s, b, d - 1);
      Triangle(s, b, c, d - 1, e);
    }
  }

  lemma StepInContext<T(!new)>(p: seq<T>, a: seq<T>, b: seq<T>, q: seq<T>)
    requires Inserted(a, b)
    ensures Inserted(p + a + q, p + b + q)
  {
    var i: nat, x :| i <= |a| && b == InsertAt(a, i, x);
    assert p + b + q == InsertAt(p + a + q, |p| + i, x);
  }

  lemma {:induction false} InContext<T(!new)>(p: seq<T>, a: seq<T>, b: seq<T>, q: seq<T>, d: nat)
    requires Apart(a, b, d)
    ensures Apart(p + a + q, p + b + q, d)
    decreases d
  {
    if a != b {
      var s :| Step(a, s) && Apart(s, b, d - 1);
      if Inserted(a, s) { StepInContext(p, a, s, q); } else { StepInContext(p, s, a, q); }
      InContext(p, s, b, q, d - 1);
      assert Step(p + a + q, p + s + q);
    }
  }

  /** A function that one insertion moves by at most `k` is moved by `d` steps by at most `k * d`. */
  ghost predicate Lipschitz<T(!new), U(!new)>(f: seq<T> -> seq<U>, k: nat) {
    forall a, b :: Inserted(a, b) ==> Apart(f(a), f(b), k) && Apart(f(b), f(a), k)
  }

  lemma {:induction false} LipschitzApart<T(!new), U(!new)>(f: seq<T> -> seq<U>, k: nat, a: seq<T>, b: seq<T>, d: nat)
    requires Lipschitz(f, k) && Apart(a, b, d)
    ensures Apart(f(a), f(b), k * d)
    decreases d
  {
    if a != b {
      var s :| Step(a, s) && Apart(s, b, d - 1);
      LipschitzApart(f, k, s, b, d - 1);
      assert k * d == k + k * (d - 1);
      Triangle(f(a), f(s), f(b), k, k * (d - 1));
    }
  }

  /** One record more or less changes the measure by at most `k`. */
  ghost predicate Sensitive<T(!new)>(f: seq<T> -> real, k: real) {
    forall a, b :: Inserted(a, b) ==> -k <= f(b) - f(a) <= k
  }

  lemma Times(k: real, d: nat)
    requires d > 0
    ensures k * d as real == k + k * (d - 1) as real
  {
  }

  /** What one step changes by at most `k`, `d` steps change by at most `k * d`. */
  lemma {:induction false} MeasureApart<T(!new)>(f: seq<T> -> real, k: real, a: seq<T>, b: seq<T>, d: nat)
    requires Sensitive(f, k) && Apart(a, b, d) && k >= 0.0
    ensures -(k * d as real) <= f(b) - f(a) <= k * d as real
    decreases d
  {
    hide Sensitive, Step;
    if a == b {
      Positive(k, d as real);
    } else {
      var s :| Step(a, s) && Apart(s, b, d - 1);
      MeasureApart(f, k, s, b, d - 1);
      MeasureStep(f, k, a, s);
      Times(k, d);
      var rest := k * (d - 1) as real;
      assert k * d as real == k + rest;
      assert -rest <= f(b) - f(s) <= rest;
    }
  }

  lemma MeasureStep<T(!new)>(f: seq<T> -> real, k: real, a: seq<T>, b: seq<T>)
    requires Sensitive(f, k) && Step(a, b)
    ensures -k <= f(b) - f(a) <= k
  {
  }

  lemma Positive(k: real, x: real)
    requires k >= 0.0 && x >= 0.0
    ensures k * x >= 0.0
  {
  }
}
