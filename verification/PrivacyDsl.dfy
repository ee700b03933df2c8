/** The DSL itself: data sets that carry their stability, a budget that is spent, and measurements whose
    noise is scaled to the stability. Numbers are reals; drawing the noise is left to the caller. */
module PrivacyDsl {
  import opened Collections
  import opened EditDistance
  import opened Stability
  import opened DslRecords

  datatype PrivacyError = InvalidParameter | InsufficientBudget | InvalidStability | InvalidScale

  datatype Result<+T> = Ok(value: T) | Err(error: PrivacyError)

  datatype Dataset<+T> = Dataset(data: seq<T>, stability: nat)

  /** A data set contributes at least one record a person. */
  ghost predicate Proper<T>(d: Dataset<T>) {
    d.stability >= 1
  }

  function CreateDataset<T>(data: seq<T>, stability: int): (r: Result<Dataset<T>>)
    ensures r.Ok? <==> stability >= 1
    ensures r.Ok? ==> Proper(r.value) && r.value.data == data && r.value.stability == stability
    ensures r.Err? ==> r.error == InvalidStability
  {
    if stability < 1 then Err(InvalidStability) else Ok(Dataset(data, stability))
  }

  // ----- transformations

  /** Exactly the records that satisfy the predicate, in their order. */
  function FilterDataset<T>(p: T -> bool, d: Dataset<T>): (r: Dataset<T>)
    ensures Selected(p, d.data, r.data) && r.stability == d.stability
  {
    FilterSelects(p, d.data);
    Dataset(Filter(p, d.data), d.stability)
  }

  function MapDataset<T, U>(f: T -> U, d: Dataset<T>): (r: Dataset<U>)
    ensures |r.data| == |d.data| && forall i :: 0 <= i < |d.data| ==> r.data[i] == f(d.data[i])
    ensures r.stability == d.stability
  {
    Dataset(Map(f, d.data), d.stability)
  }

  /** The records of the first operand, and then those of the second. */
  function UnionDataset<T>(a: Dataset<T>, b: Dataset<T>): (r: Dataset<T>)
    ensures |r.data| == |a.data| + |b.data| && r.stability == a.stability + b.stability
    ensures forall i :: 0 <= i < |r.data| ==>
      r.data[i] == if i < |a.data| then a.data[i] else b.data[i - |a.data|]
  {
    Dataset(a.data + b.data, a.stability + b.stability)
  }

  /** One group for each key, in the order of first appearance, with its records in order. */
  function GroupByDataset(keyf: Value -> Value, d: Dataset<Value>): (r: Dataset<Value>)
    ensures GroupsOf(keyf, d.data, r.data) && r.stability == 2 * d.stability
  {
    GroupByGroups(keyf, d.data);
    Dataset(GroupBy(keyf, d.data), 2 * d.stability)
  }

  /** Exactly the records of the first operand that occur in the second, in their order. */
  function IntersectDataset<T(==)>(a: Dataset<T>, b: Dataset<T>): (r: Dataset<T>)
    ensures Selected(x => x in b.data, a.data, r.data) && r.stability == a.stability + b.stability
  {
    FilterSelects(x => x in b.data, a.data);
    Dataset(Intersect(a.data, b.data), a.stability + b.stability)
  }

  /** What a pipeline evaluates to, operation by operation. */
  function Evaluate(p: Pipeline, sources: seq<Dataset<Value>>): Dataset<Value>
    requires Uses(p, |sources|)
  {
    match p
    case Source(i) => sources[i]
    case FilterOf(f, q) => FilterDataset(f, Evaluate(q, sources))
    case MapOf(f, q) => MapDataset(f, Evaluate(q, sources))
    case UnionOf(q, r) => UnionDataset(Evaluate(q, sources), Evaluate(r, sources))
    case GroupByOf(keyf, q) => GroupByDataset(keyf, Evaluate(q, sources))
    case IntersectOf(q, r) => IntersectDataset(Evaluate(q, sources), Evaluate(r, sources))
  }

  ghost function Datas(sources: seq<Dataset<Value>>): seq<seq<Value>> {
    seq(|sources|, i requires 0 <= i < |sources| => sources[i].data)
  }

  ghost function Stabilities(sources: seq<Dataset<Value>>): seq<nat> {
    seq(|sources|, i requires 0 <= i < |sources| => sources[i].stability)
  }

  lemma {:induction false} EvaluateIs(p: Pipeline, sources: seq<Dataset<Value>>)
    requires Uses(p, |sources|)
    ensures Evaluate(p, sources) == Dataset(Run(p, Datas(sources)), Tracked(p, Stabilities(sources)))
    decreases p
  {
    hide Filter, Map, GroupBy, Intersect;
    match p
    case Source(i) =>
    case FilterOf(_, q) => EvaluateIs(q, sources);
    case MapOf(_, q) => EvaluateIs(q, sources);
    case UnionOf(q, r) =>
      EvaluateIs(q, sources);
      EvaluateIs(r, sources);
    case GroupByOf(_, q) => EvaluateIs(q, sources);
    case IntersectOf(q, r) =>
      EvaluateIs(q, sources);
      EvaluateIs(r, sources);
  }

  /** Two families of data sets that `k` people make the difference between. */
  ghost predicate Neighbours(a: seq<Dataset<Value>>, b: seq<Dataset<Value>>, k: nat) {
    |a| == |b| && forall i :: 0 <= i < |a| ==>
      a[i].stability == b[i].stability && Apart(a[i].data, b[i].data, Scaled(k, a[i].stability))
  }

  /** What the DSL tracks bounds what `k` people can change, for every pipeline and all neighbours, as
      long as it intersects only data sets without duplicates with others. */
  lemma PipelinesAreStable(p: Pipeline, a: seq<Dataset<Value>>, b: seq<Dataset<Value>>, k: nat)
    requires Neighbours(a, b, k) && Uses(p, |a|) && IntersectsDistinct(p, Datas(a))
    ensures var x, y := Evaluate(p, a), Evaluate(p, b);
      x.stability == y.stability && Apart(x.data, y.data, Scaled(k, x.stability))
  {
    EvaluateIs(p, a);
    EvaluateIs(p, b);
    assert Stabilities(a) == Stabilities(b);
    StabilityIsSound(p, Datas(a), Datas(b), Stabilities(a), k);
  }

  // ----- grouping and partitioning as they are computed

  /** Fills a dictionary that remembers the order in which its keys came. */
  method GroupByLoop(keyf: Value -> Value, d: Dataset<Value>) returns (r: Dataset<Value>)
    ensures r == GroupByDataset(keyf, d)
  {
    hide AddTo, GroupBy, Items;
    var order: seq<Value> := [];
    var groups: map<Value, seq<Value>> := map[];
    NothingGrouped(keyf, d.data);
    for i := 0 to |d.data|
      invariant Listed(order, groups) && Items(order, groups) == GroupBy(keyf, d.data[..i])
    {
      var key, item := keyf(d.data[i]), d.data[i];
      OneMoreRecord(keyf, d.data, i);
      AddListed(order, groups, key, item);
      if key !in groups {
        order, groups := order + [key], groups[key := []];
      }
      groups := groups[key := groups[key] + [item]];
    }
    assert d.data[..|d.data|] == d.data;
    r := Dataset(Items(order, groups), 2 * d.stability);
  }

  lemma NothingGrouped(keyf: Value -> Value, data: seq<Value>)
    ensures Items([], map[]) == GroupBy(keyf, data[..0])
  {
  }

  lemma OneMoreRecord(keyf: Value -> Value, data: seq<Value>, i: nat)
    requires i < |data|
    ensures GroupBy(keyf, data[..i + 1]) == AddTo(GroupBy(keyf, data[..i]), keyf(data[i]), data[i])
  {
    hide AddTo;
    assert data[..i + 1][..i] == data[..i];
  }

  /** The order lists every key once. */
  ghost predicate Listed(order: seq<Value>, groups: map<Value, seq<Value>>) {
    && (forall k :: k in groups <==> k in order)
    && (forall i, j :: 0 <= i < j < |order| ==> order[i] != order[j])
  }

  function Items(order: seq<Value>, groups: map<Value, seq<Value>>): seq<Value>
    requires forall i :: 0 <= i < |order| ==> order[i] in groups
  {
    seq(|order|, i requires 0 <= i < |order| => Group(order[i], groups[order[i]]))
  }

  lemma AddListed(order: seq<Value>, groups: map<Value, seq<Value>>, key: Value, item: Value)
    requires Listed(order, groups)
    ensures key in groups ==>
      && Listed(order, groups[key := groups[key] + [item]])
      && Items(order, groups[key := groups[key] + [item]]) == AddTo(Items(order, groups), key, item)
    ensures key !in groups ==>
      && Listed(order + [key], groups[key := []]) && Listed(order + [key], groups[key := []][key := [] + [item]])
      && Items(order + [key], groups[key := []][key := [] + [item]]) == AddTo(Items(order, groups), key, item)
  {
    if key in groups {
      AddToListed(order, groups, key, item);
    } else {
      AddUnlisted(order, groups, key, item);
    }
  }

  lemma AddToListed(order: seq<Value>, groups: map<Value, seq<Value>>, key: Value, item: Value)
    requires Listed(order, groups) && key in groups
    ensures Listed(order, groups[key := groups[key] + [item]])
    ensures Items(order, groups[key := groups[key] + [item]]) == AddTo(Items(order, groups), key, item)
  {
    hide Find;
    var items, more := Items(order, groups), groups[key := groups[key] + [item]];
    var j :| 0 <= j < |order| && order[j] == key;
    FindIs(items, key, j);
    assert forall i :: 0 <= i < |order| && i != j ==> order[i] != order[j];
    assert Items(order, more) == items[j := Group(key, groups[key] + [item])];
  }

  lemma AddUnlisted(order: seq<Value>, groups: map<Value, seq<Value>>, key: Value, item: Value)
    requires Listed(order, groups) && key !in groups
    ensures Listed(order + [key], groups[key := []]) && Listed(order + [key], groups[key := []][key := [] + [item]])
    ensures Items(order + [key], groups[key := []][key := [] + [item]]) == AddTo(Items(order, groups), key, item)
  {
    hide Find;
    var items := Items(order, groups);
    assert forall i :: 0 <= i < |order| ==> order[i] != key by {
      assert forall i :: 0 <= i < |order| ==> order[i] in order;
    }
    FindIs(items, key, |items|);
    assert Items(order + [key], groups[key := []][key := [] + [item]]) == items + [Group(key, [] + [item])];
    assert [] + [item] == [item];
  }

  /** The buckets of a partition, one for each key in the list, with the stability of the whole. */
  method Buckets<T, K(==)>(keys: seq<K>, classifier: T -> K, d: Dataset<T>) returns (parts: seq<(K, Dataset<T>)>)
    ensures |parts| == |keys|
    ensures forall i :: 0 <= i < |keys| ==>
      parts[i] == (keys[i], Dataset(BucketOf(classifier, keys[i], d.data), d.stability))
  {
    var buckets: map<K, seq<T>> := map[];
    for i := 0 to |keys|
      invariant forall k :: k in buckets <==> k in keys[..i]
      invariant forall k :: k in buckets ==> buckets[k] == []
    {
      buckets := buckets[keys[i] := []];
    }
    assert keys[..|keys|] == keys;
    for i := 0 to |d.data|
      invariant forall k :: k in buckets <==> k in keys
      invariant forall k :: k in buckets ==> buckets[k] == BucketOf(classifier, k, d.data[..i])
    {
      var k := classifier(d.data[i]);
      assert d.data[..i + 1][..i] == d.data[..i];
      if k in buckets {
        buckets := buckets[k := buckets[k] + [d.data[i]]];
      }
    }
    assert d.data[..|d.data|] == d.data;
    parts := [];
    for i := 0 to |keys|
      invariant |parts| == i
      invariant forall j :: 0 <= j < i ==>
        parts[j] == (keys[j], Dataset(BucketOf(classifier, keys[j], d.data), d.stability))
    {
      parts := parts + [(keys[i], Dataset(buckets[keys[i]], d.stability))];
    }
  }

  // ----- the budget and the measurements

  /** The true value, before noise with this scale is added to it. */
  datatype Measurement = Measurement(value: real, scale: real, spent: real)

  /** What a request to spend `epsilon` is answered. */
  function Charge(total: real, used: real, epsilon: real): Result<real> {
    if epsilon <= 0.0 then Err(InvalidParameter)
    else if epsilon > total - used then Err(InsufficientBudget)
    else Ok(used + epsilon)
  }

  /** A computation on the bucket of a key: what it returns or how it fails, and how much of the budget is
      used after it, given how much was used before. */
  type Computation<!T, !K, !R> = (K, Dataset<T>, real) -> (Result<R>, real)

  /** All a computation can do to the budget is to spend of what is left. */
  ghost predicate OnlySpends<T(!new), K(!new), R(!new)>(computation: Computation<T, K, R>, total: real) {
    forall k, d, used :: 0.0 <= used <= total ==> used <= computation(k, d, used).1 <= total
  }

  /** The computation on bucket `i`, run with `used` of the budget used. */
  ghost function OnBucket<T, K, R>(keys: seq<K>, classifier: T -> K, d: Dataset<T>, computation: Computation<T, K, R>,
                                   used: real, i: nat): (Result<R>, real)
    requires i < |keys|
  {
    computation(keys[i], Dataset(BucketOf(classifier, keys[i], d.data), d.stability), used)
  }

  /** Computation `i` is the first to fail. */
  ghost predicate FailsAt<T, K, R>(keys: seq<K>, classifier: T -> K, d: Dataset<T>, computation: Computation<T, K, R>,
                                   used: real, i: int, error: PrivacyError)
  {
    && 0 <= i < |keys| && OnBucket(keys, classifier, d, computation, used, i).0 == Err(error)
    && forall j :: 0 <= j < i ==> OnBucket(keys, classifier, d, computation, used, j).0.Ok?
  }

  class Dsl {
    var total: real
    var used: real

    /** Never more is spent than there is. */
    ghost predicate Valid()
      reads this
    {
      total > 0.0 && 0.0 <= used <= total
    }

    constructor (budget: real)
      requires budget > 0.0
      ensures Valid() && total == budget && used == 0.0
    {
      total, used := budget, 0.0;
    }

    static method Create(budget: real) returns (r: Result<Dsl>)
      ensures r.Ok? <==> budget > 0.0
      ensures r.Ok? ==> fresh(r.value) && r.value.Valid() && r.value.total == budget && r.value.used == 0.0
      ensures r.Err? ==> r.error == InvalidParameter
    {
      if budget <= 0.0 {
        return Err(InvalidParameter);
      }
      var d := new Dsl(budget);
      r := Ok(d);
    }

    method ConsumeBudget(epsilon: real) returns (r: Result<real>)
      requires Valid()
      modifies `used
      ensures Valid() && r == Charge(total, old(used), epsilon)
      ensures r.Ok? <==> 0.0 < epsilon <= total - old(used)
      ensures r.Ok? ==> r.value == used == old(used) + epsilon
      ensures r.Err? ==> r.error == if epsilon <= 0.0 then InvalidParameter else InsufficientBudget
      ensures used == if r.Ok? then r.value else old(used)
    {
      if epsilon <= 0.0 {
        return Err(InvalidParameter);
      }
      var remaining := total - used;
      if epsilon > remaining {
        return Err(InsufficientBudget);
      }
      used := used + epsilon;
      r := Ok(used);
    }

    /** Every computation runs with the charge refunded, so with what was used before; what it spends is
        forgotten again, and the charge is all that is paid. If one fails, what was used before and what
        this one has spent is all that is left used. */
    method Partition<T(!new), K(!new, ==), R(!new)>(keys: seq<K>, classifier: T -> K, d: Dataset<T>,
                                                    computation: Computation<T, K, R>, epsilon: real)
      returns (r: Result<seq<(K, R)>>)
      requires Valid() && OnlySpends(computation, total)
      modifies `used
      ensures Valid()
      ensures var c, u := Charge(total, old(used), epsilon), old(used);
        if c.Err? then r == Err(c.error) && used == u
        else if r.Ok? then
          && used == u + epsilon && |r.value| == |keys|
          && forall i :: 0 <= i < |keys| ==>
               var (res, after) := OnBucket(keys, classifier, d, computation, u, i);
               res.Ok? && r.value[i] == (keys[i], res.value)
        else exists i :: FailsAt(keys, classifier, d, computation, u, i, r.error)
                         && used == OnBucket(keys, classifier, d, computation, u, i).1
    {
      var charged := ConsumeBudget(epsilon);
      if charged.Err? {
        return Err(charged.error);
      }
      var parts := Buckets(keys, classifier, d);
      var finalUsed := used;
      ghost var before := old(used);
      var results: seq<(K, R)> := [];
      for i := 0 to |keys|
        invariant |results| == i && used == finalUsed
        invariant forall j :: 0 <= j < i ==>
          OnBucket(keys, classifier, d, computation, before, j).0.Ok?
          && results[j] == (keys[j], OnBucket(keys, classifier, d, computation, before, j).0.value)
      {
        used := used - epsilon;
        var (res, after) := computation(keys[i], parts[i].1, used);
        used := after;
        if res.Err? {
          assert FailsAt(keys, classifier, d, computation, before, i, res.error);
          return Err(res.error);
        }
        used := finalUsed;
        results := results + [(keys[i], res.value)];
      }
      r := Ok(results);
    }

    method Count<T>(d: Dataset<T>, epsilon: real) returns (r: Result<Measurement>)
      requires Valid() && Proper(d)
      modifies `used
      ensures Valid()
      ensures var c := Charge(total, old(used), epsilon);
        if c.Err? then r == Err(c.error) && used == old(used)
        else r == Ok(CountOf(d, epsilon)) && used == c.value
    {
      var charged := ConsumeBudget(epsilon);
      if charged.Err? {
        return Err(charged.error);
      }
      var sensitivity := d.stability as real;
      r := Ok(Measurement(|d.data| as real, NoiseScale(sensitivity, epsilon), epsilon));
    }

    /** With both bounds zero nothing is left to hide, and the noise cannot be drawn: the budget is spent
        all the same. */
    method Sum(d: Dataset<real>, epsilon: real, lower: real, upper: real) returns (r: Result<Measurement>)
      requires Valid() && Proper(d)
      modifies `used
      ensures Valid()
      ensures var c := Charge(total, old(used), epsilon);
        if c.Err? then r == Err(c.error) && used == old(used)
        else used == c.value && r == if lower == 0.0 == upper then Err(InvalidScale) else Ok(SumOf(d, epsilon, lower, upper))
    {
      var charged := ConsumeBudget(epsilon);
      if charged.Err? {
        return Err(charged.error);
      }
      var trueSum := AddClamped(d.data, lower, upper);
      var maxMagnitude := Max(Abs(lower), Abs(upper));
      var sensitivity := d.stability as real * maxMagnitude;
      NoScale(d.stability, lower, upper, epsilon);
      hide Max, Abs, ClampedSum, NoiseScale;
      if NoiseScale(sensitivity, epsilon) <= 0.0 {
        return Err(InvalidScale);
      }
      r := Ok(Measurement(trueSum, NoiseScale(sensitivity, epsilon), epsilon));
      assert r.value.scale == SumOf(d, epsilon, lower, upper).scale;
      assert r.value == SumOf(d, epsilon, lower, upper);
    }
  }

  method AddClamped(data: seq<real>, lower: real, upper: real) returns (sum: real)
    ensures sum == ClampedSum(data, lower, upper)
  {
    sum := 0.0;
    for i := 0 to |data|
      invariant sum == ClampedSum(data[..i], lower, upper)
    {
      assert data[..i + 1][..i] == data[..i];
      sum := sum + Min(upper, Max(lower, data[i]));
    }
    assert data[..|data|] == data;
  }

  function NoiseScale(sensitivity: real, epsilon: real): real
    requires epsilon > 0.0
  {
    sensitivity / epsilon
  }

  lemma NoScale(stability: nat, lower: real, upper: real, epsilon: real)
    requires stability >= 1 && epsilon > 0.0
    ensures NoiseScale(stability as real * Max(Abs(lower), Abs(upper)), epsilon) <= 0.0 <==> lower == 0.0 == upper
  {
    Magnitude(lower, upper);
    Product(stability as real, Max(Abs(lower), Abs(upper)));
    Quotient(stability as real * Max(Abs(lower), Abs(upper)), epsilon);
  }

  lemma Magnitude(lower: real, upper: real)
    ensures Max(Abs(lower), Abs(upper)) >= 0.0
    ensures Max(Abs(lower), Abs(upper)) == 0.0 <==> lower == 0.0 == upper
  {
  }

  lemma Quotient(a: real, b: real)
    requires b > 0.0
    ensures a / b * b == a && (a > 0.0 <==> a / b > 0.0)
  {
  }

  lemma Product(a: real, b: real)
    requires a > 0.0 && b >= 0.0
    ensures a * b > 0.0 <==> b > 0.0
  {
  }

  /** The number of records, with noise of scale stability over epsilon. */
  function CountOf<T>(d: Dataset<T>, epsilon: real): (m: Measurement)
    requires epsilon > 0.0
    ensures m.value == |d.data| as real && m.scale * epsilon == d.stability as real && m.spent == epsilon
  {
    Measurement(|d.data| as real, NoiseScale(d.stability as real, epsilon), epsilon)
  }

  function SumOf(d: Dataset<real>, epsilon: real, lower: real, upper: real): (m: Measurement)
    requires epsilon > 0.0
    ensures m.value == ClampedSum(d.data, lower, upper) && m.spent == epsilon
    ensures m.scale * epsilon == d.stability as real * Max(Abs(lower), Abs(upper))
  {
    Measurement(ClampedSum(d.data, lower, upper), NoiseScale(d.stability as real * Max(Abs(lower), Abs(upper)), epsilon), epsilon)
  }

  /** The noise is enough: `k` people change the true value by at most `k` times epsilon times its scale. */
  ghost predicate Calibrated(x: Measurement, y: Measurement, k: nat) {
    x.scale == y.scale && x.spent == y.spent && var most := k as real * (x.scale * x.spent); -most <= y.value - x.value <= most
  }

  lemma CountIsCalibrated<T(!new)>(a: Dataset<T>, b: Dataset<T>, epsilon: real, k: nat)
    requires epsilon > 0.0 && a.stability == b.stability && Apart(a.data, b.data, Scaled(k, a.stability))
    ensures Calibrated(CountOf(a, epsilon), CountOf(b, epsilon), k)
  {
    hide Apart, Scaled;
    CountApart(a.data, b.data, Scaled(k, a.stability));
    Quotient(a.stability as real, epsilon);
    var x := CountOf(a, epsilon);
    assert x.scale * x.spent == a.stability as real;
    ScaledReal(k, a.stability);
  }

  lemma ScaledReal(k: nat, n: nat)
    ensures Scaled(k, n) as real == k as real * n as real
  {
  }

  lemma SumIsCalibrated(a: Dataset<real>, b: Dataset<real>, epsilon: real, lower: real, upper: real, k: nat)
    requires epsilon > 0.0 && a.stability == b.stability && Apart(a.data, b.data, Scaled(k, a.stability))
    ensures Calibrated(SumOf(a, epsilon, lower, upper), SumOf(b, epsilon, lower, upper), k)
  {
    hide ClampedSum, Apart;
    var m := Max(Abs(lower), Abs(upper));
    SumApart(a.data, b.data, lower, upper, Scaled(k, a.stability));
    Quotient(a.stability as real * m, epsilon);
    ScaledReal(k, a.stability);
    Reorder(k as real, a.stability as real, m);
  }

  lemma Reorder(k: real, n: real, m: real)
    ensures m * (k * n) == k * (n * m)
  {
  }

  // ----- what the charge of a partition pays for

  /** What data sets that are `ds` apart, bucket by bucket, lose when `spent` is spent on each bucket. */
  function Weighted(ds: seq<nat>, spent: seq<real>): real
    requires |ds| == |spent|
  {
    if ds == [] then 0.0
    else Weighted(ds[..|ds| - 1], spent[..|spent| - 1]) + ds[|ds| - 1] as real * spent[|spent| - 1]
  }

  /** The charge pays for the losses of all buckets together, wherever the data sets differ. */
  ghost predicate Covers(epsilon: real, spent: seq<real>) {
    forall ds: seq<nat> {:trigger Weighted(ds, spent)} :: |ds| == |spent| ==>
      Weighted(ds, spent) <= Sum(ds) as real * epsilon
  }

  lemma MulLeq(n: nat, x: real, y: real)
    requires x <= y
    ensures n as real * x <= n as real * y
  {
  }

  lemma {:induction false} WeightedBound(ds: seq<nat>, spent: seq<real>, epsilon: real)
    requires |ds| == |spent| && forall i :: 0 <= i < |spent| ==> spent[i] <= epsilon
    ensures Weighted(ds, spent) <= Sum(ds) as real * epsilon
    decreases |ds|
  {
    if ds != [] {
      var n := |ds| - 1;
      WeightedBound(ds[..n], spent[..n], epsilon);
      MulLeq(ds[n], spent[n], epsilon);
      assert Sum(ds) as real * epsilon == Sum(ds[..n]) as real * epsilon + ds[n] as real * epsilon;
    }
  }

  function OneAt(n: nat, i: nat): seq<nat> {
    seq(n, j => if j == i then 1 else 0)
  }

  lemma {:induction false} OneAtWeighs(n: nat, i: nat, spent: seq<real>)
    requires n == |spent|
    ensures Weighted(OneAt(n, i), spent) == (if i < n then spent[i] else 0.0)
    ensures Sum(OneAt(n, i)) == if i < n then 1 else 0
    decreases n
  {
    if n > 0 {
      assert OneAt(n, i)[..n - 1] == OneAt(n - 1, i);
      OneAtWeighs(n - 1, i, spent[..n - 1]);
    }
  }

  lemma CoversExactly(epsilon: real, spent: seq<real>)
    ensures Covers(epsilon, spent) <==> forall i :: 0 <= i < |spent| ==> spent[i] <= epsilon
  {
    hide Weighted, Sum;
    if forall i :: 0 <= i < |spent| ==> spent[i] <= epsilon {
      forall ds: seq<nat> | |ds| == |spent| ensures Weighted(ds, spent) <= Sum(ds) as real * epsilon {
        WeightedBound(ds, spent, epsilon);
      }
    }
    if Covers(epsilon, spent) {
      forall i | 0 <= i < |spent| ensures spent[i] <= epsilon {
        OneAtWeighs(|spent|, i, spent);
        assert Weighted(OneAt(|spent|, i), spent) == spent[i];
      }
    }
  }

  /** What each computation of a partition spends, run with `used` of the budget used. */
  ghost function Spent<T, K, R>(keys: seq<K>, classifier: T -> K, d: Dataset<T>, computation: Computation<T, K, R>,
                                used: real): (spent: seq<real>)
    ensures |spent| == |keys|
  {
    seq(|keys|, i requires 0 <= i < |keys| => OnBucket(keys, classifier, d, computation, used, i).1 - used)
  }

  /** The charge of a partition pays for all its computations exactly if none of them spends more than the
      charge; nothing in `Partition` makes sure of that. */
  lemma ChargeCoversExactly<T, K, R>(keys: seq<K>, classifier: T -> K, d: Dataset<T>,
                                     computation: Computation<T, K, R>, used: real, epsilon: real)
    ensures Covers(epsilon, Spent(keys, classifier, d, computation, used))
       <==> forall i :: 0 <= i < |keys| ==> OnBucket(keys, classifier, d, computation, used, i).1 <= used + epsilon
  {
    hide Covers, OnBucket;
    var spent := Spent(keys, classifier, d, computation, used);
    assert forall i :: 0 <= i < |keys| ==> spent[i] == OnBucket(keys, classifier, d, computation, used, i).1 - used;
    CoversExactly(epsilon, spent);
  }

  /** A computation that spends all that is left. */
  function SpendRest<T, K>(total: real): Computation<T, K, int> {
    (k, d, used) => (Ok(0), if used <= total then total else used)
  }

  /** It is allowed to, and a partition with any charge that leaves something over is not paid for. */
  lemma RestIsNotCovered<T(!new), K(!new)>(keys: seq<K>, classifier: T -> K, d: Dataset<T>, total: real, used: real,
                                           epsilon: real)
    requires keys != [] && 0.0 <= used && 0.0 < epsilon < total - used
    ensures Charge(total, used, epsilon).Ok? && OnlySpends(SpendRest<T, K>(total), total)
    ensures !Covers(epsilon, Spent(keys, classifier, d, SpendRest<T, K>(total), used))
  {
    hide Covers, BucketOf;
    ChargeCoversExactly(keys, classifier, d, SpendRest<T, K>(total), used, epsilon);
    assert OnBucket(keys, classifier, d, SpendRest<T, K>(total), used, 0).1 == total;
  }

  /** Parallel composition: over distinct keys, what `n` records make the difference of, in all buckets
      together, costs no more than `n` times the charge when no computation spends more than that. */
  lemma PartitionPaysOnce<T(!new), K(!new), R(!new)>(keys: seq<K>, classifier: T -> K, d: Dataset<T>, b: seq<T>, n: nat,
                                                     computation: Computation<T, K, R>, used: real, epsilon: real)
    returns (ds: seq<nat>)
    requires Apart(d.data, b, n) && Distinct(keys) && epsilon >= 0.0
    requires forall i :: 0 <= i < |keys| ==> OnBucket(keys, classifier, d, computation, used, i).1 <= used + epsilon
    ensures |ds| == |keys|
    ensures Weighted(ds, Spent(keys, classifier, d, computation, used)) <= n as real * epsilon
    ensures forall i :: 0 <= i < |keys| ==>
      Apart(BucketOf(classifier, keys[i], d.data), BucketOf(classifier, keys[i], b), ds[i])
  {
    hide Apart, BucketOf, OnBucket, Covers;
    ds := BucketDistancesAddUp(classifier, keys, d.data, b, n);
    ChargeCoversExactly(keys, classifier, d, computation, used, epsilon);
    CoversAll(epsilon, Spent(keys, classifier, d, computation, used), ds);
    MonotoneMul(Sum(ds), n, epsilon);
  }

  lemma CoversAll(epsilon: real, spent: seq<real>, ds: seq<nat>)
    requires Covers(epsilon, spent) && |ds| == |spent|
    ensures Weighted(ds, spent) <= Sum(ds) as real * epsilon
  {
  }

  lemma MonotoneMul(m: nat, n: nat, x: real)
    requires m <= n && x >= 0.0
    ensures m as real * x <= n as real * x
  {
  }
}
