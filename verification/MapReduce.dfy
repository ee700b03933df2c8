/** The data path of distributed MapReduce against the sequential reference program. A file is the
    sequence of pairs written to it; every other part of a task is as the workers run it. */
module MapReduce {
  import opened Sorting

  datatype KeyValue = KeyValue(key: string, value: string)

  datatype Input = Input(name: string, contents: string)

  /** One call of the reduce function. */
  datatype Call = Call(key: string, values: seq<string>)

  predicate ByKey(a: KeyValue, b: KeyValue) {
    StringLess(a.key, b.key)
  }

  function Line(key: string, output: string): string {
    key + " " + output + "\n"
  }

  // ----- what a program is to compute

  ghost function Keys(data: seq<KeyValue>): set<string> {
    set kv | kv in data :: kv.key
  }

  /** The values of a key, in the order of the data. */
  function Values(key: string, data: seq<KeyValue>): seq<string> {
    if data == [] then []
    else
      var last := data[|data| - 1];
      Values(key, data[..|data| - 1]) + if last.key == key then [last.value] else []
  }

  ghost predicate DistinctKeys(calls: seq<Call>) {
    forall c, d :: 0 <= c < d < |calls| ==> calls[c].key != calls[d].key
  }

  ghost function CallKeys(calls: seq<Call>): set<string> {
    set c | c in calls :: c.key
  }

  ghost predicate RightValues(calls: seq<Call>, data: seq<KeyValue>) {
    forall c :: 0 <= c < |calls| ==> multiset(calls[c].values) == multiset(Values(calls[c].key, data))
  }

  /** Every key is reduced exactly once, with exactly its values in some order. */
  ghost predicate OnceEach(calls: seq<Call>, data: seq<KeyValue>) {
    DistinctKeys(calls) && CallKeys(calls) == Keys(data) && RightValues(calls, data)
  }

  function LineOf(reducef: (string, seq<string>) -> string, c: Call): string {
    Line(c.key, reducef(c.key, c.values))
  }

  function LinesOf(reducef: (string, seq<string>) -> string, calls: seq<Call>): (r: seq<string>)
    ensures |r| == |calls|
  {
    seq(|calls|, i requires 0 <= i < |calls| => LineOf(reducef, calls[i]))
  }

  /** The lines of a program that has reduced every key of the data exactly once. */
  ghost predicate Reduced(data: seq<KeyValue>, reducef: (string, seq<string>) -> string, lines: seq<string>) {
    exists calls :: OnceEach(calls, data) && lines == LinesOf(reducef, calls)
  }

  ghost function CallsOf(data: seq<KeyValue>, reducef: (string, seq<string>) -> string,
          lines: seq<string>): (calls: seq<Call>)
    requires Reduced(data, reducef, lines)
    ensures OnceEach(calls, data) && lines == LinesOf(reducef, calls)
  {
    var calls :| OnceEach(calls, data) && lines == LinesOf(reducef, calls); calls
  }

  // ----- what a program has written, said by positions and numbers of occurrences

  /** The line is the key, a space, the output and a newline, and nothing else. */
  ghost predicate LineReads(line: string, key: string, output: string) {
    && |line| == |key| + 1 + |output| + 1
    && line[..|key|] == key && line[|key|] == ' '
    && line[|key| + 1..|key| + 1 + |output|] == output && line[|line| - 1] == '\n'
  }

  ghost predicate HasCall(calls: seq<Call>, key: string) {
    exists c :: 0 <= c < |calls| && calls[c].key == key
  }

  ghost predicate HasPair(data: seq<KeyValue>, key: string) {
    exists i :: 0 <= i < |data| && data[i].key == key
  }

  /** One call for each key that occurs, with each value as often as it occurs with the key. */
  ghost predicate CallsRight(calls: seq<Call>, data: seq<KeyValue>) {
    && (forall c, d :: 0 <= c < d < |calls| ==> calls[c].key != calls[d].key)
    && (forall key {:trigger HasCall(calls, key)} {:trigger HasPair(data, key)} ::
          HasCall(calls, key) <==> HasPair(data, key))
    && (forall c, v :: 0 <= c < |calls| ==> multiset(calls[c].values)[v] == multiset(data)[KeyValue(calls[c].key, v)])
  }

  ghost predicate Ascending(calls: seq<Call>) {
    forall c, d :: 0 <= c < d < |calls| ==> StringLess(calls[c].key, calls[d].key)
  }

  ghost predicate Writes(calls: seq<Call>, data: seq<KeyValue>, reducef: (string, seq<string>) -> string,
          lines: seq<string>)
  {
    && CallsRight(calls, data) && |lines| == |calls|
    && forall i :: 0 <= i < |lines| ==>
         LineReads(lines[i], calls[i].key, reducef(calls[i].key, calls[i].values))
  }

  /** One line for each key, with what the reduce function makes of the key and its values. */
  ghost predicate Written(data: seq<KeyValue>, reducef: (string, seq<string>) -> string, lines: seq<string>) {
    exists calls :: Writes(calls, data, reducef, lines)
  }

  /** And the lines are in ascending order of the keys. */
  ghost predicate WrittenInOrder(data: seq<KeyValue>, reducef: (string, seq<string>) -> string, lines: seq<string>) {
    exists calls :: Writes(calls, data, reducef, lines) && Ascending(calls)
  }

  ghost predicate ReducedInOrder(data: seq<KeyValue>, reducef: (string, seq<string>) -> string, lines: seq<string>) {
    exists calls :: OnceEach(calls, data) && lines == LinesOf(reducef, calls) && Ascending(calls)
  }

  lemma {:induction false} ValuesCount(key: string, data: seq<KeyValue>, v: string)
    ensures multiset(Values(key, data))[v] == multiset(data)[KeyValue(key, v)]
    decreases |data|
  {
    if data != [] {
      var front, last := data[..|data| - 1], data[|data| - 1];
      ValuesCount(key, front, v);
      assert data == front + [last];
      assert multiset(data) == multiset(front) + multiset{last};
    }
  }

  lemma LineIsRead(key: string, output: string)
    ensures LineReads(Line(key, output), key, output)
  {
    var line := Line(key, output);
    assert line[..|key|] == key;
    assert line[|key| + 1..|key| + 1 + |output|] == output;
  }

  lemma HasIsIn(calls: seq<Call>, data: seq<KeyValue>, key: string)
    ensures HasCall(calls, key) <==> key in CallKeys(calls)
    ensures HasPair(data, key) <==> key in Keys(data)
  {
    if c :| 0 <= c < |calls| && calls[c].key == key {
      assert calls[c] in calls;
    }
    if i :| 0 <= i < |data| && data[i].key == key {
      assert data[i] in data;
    }
  }

  lemma OnceEachIsRight(calls: seq<Call>, data: seq<KeyValue>)
    requires OnceEach(calls, data)
    ensures CallsRight(calls, data)
  {
    hide Values;
    forall key ensures HasCall(calls, key) <==> HasPair(data, key) {
      HasIsIn(calls, data, key);
    }
    forall c, v | 0 <= c < |calls| ensures multiset(calls[c].values)[v] == multiset(data)[KeyValue(calls[c].key, v)] {
      ValuesCount(calls[c].key, data, v);
    }
  }

  lemma CallsWrite(calls: seq<Call>, data: seq<KeyValue>, reducef: (string, seq<string>) -> string, lines: seq<string>)
    requires OnceEach(calls, data) && lines == LinesOf(reducef, calls)
    ensures Writes(calls, data, reducef, lines)
  {
    OnceEachIsRight(calls, data);
    hide OnceEach, CallsRight, LineReads, Line;
    forall i | 0 <= i < |lines| ensures LineReads(lines[i], calls[i].key, reducef(calls[i].key, calls[i].values)) {
      LineIsRead(calls[i].key, reducef(calls[i].key, calls[i].values));
    }
  }

  lemma ReducedIsWritten(data: seq<KeyValue>, reducef: (string, seq<string>) -> string, lines: seq<string>)
    ensures Reduced(data, reducef, lines) ==> Written(data, reducef, lines)
    ensures ReducedInOrder(data, reducef, lines) ==>
      WrittenInOrder(data, reducef, lines) && Reduced(data, reducef, lines)
  {
    hide OnceEach, LinesOf, Writes, Ascending;
    if Reduced(data, reducef, lines) {
      CallsWrite(CallsOf(data, reducef, lines), data, reducef, lines);
    }
    if ReducedInOrder(data, reducef, lines) {
      var calls :| OnceEach(calls, data) && lines == LinesOf(reducef, calls) && Ascending(calls);
      CallsWrite(calls, data, reducef, lines);
    }
  }

  lemma InOrderOfPermutation(a: seq<KeyValue>, b: seq<KeyValue>, reducef: (string, seq<string>) -> string,
          lines: seq<string>)
    requires ReducedInOrder(a, reducef, lines) && multiset(a) == multiset(b)
    ensures ReducedInOrder(b, reducef, lines)
  {
    hide OnceEach, LinesOf, Ascending;
    var calls :| OnceEach(calls, a) && lines == LinesOf(reducef, calls) && Ascending(calls);
    OnceEachOfPermutation(calls, a, b);
  }

  /** In sorted data a new key is greater than those before it. */
  lemma AscendsMore(calls: seq<Call>, data: seq<KeyValue>, i: nat, values: seq<string>)
    requires i < |data| && Sorted(ByKey, data) && OnceEach(calls, data[..i]) && Ascending(calls)
    requires data[i].key !in Keys(data[..i])
    ensures Ascending(calls + [Call(data[i].key, values)])
  {
    hide Values;
    forall c | 0 <= c < |calls| ensures StringLess(calls[c].key, data[i].key) {
      assert calls[c] in calls && calls[c].key in Keys(data[..i]);
      var kv :| kv in data[..i] && kv.key == calls[c].key;
      var a :| 0 <= a < i && data[a] == kv;
      assert !ByKey(data[i], data[a]);
      StringLessIsTotal(data[a].key, data[i].key);
    }
  }

  ghost predicate OrderInsensitive(reducef: (string, seq<string>) -> string) {
    forall key, v, w :: multiset(v) == multiset(w) ==> reducef(key, v) == reducef(key, w)
  }

  // ----- values and keys

  lemma {:induction false} ValuesConcat(key: string, a: seq<KeyValue>, b: seq<KeyValue>)
    ensures Values(key, a + b) == Values(key, a) + Values(key, b)
    decreases |b|
  {
    if b == [] {
      assert a + b == a;
    } else {
      assert (a + b)[..|a + b| - 1] == a + b[..|b| - 1];
      ValuesConcat(key, a, b[..|b| - 1]);
    }
  }

  lemma {:induction false} NoValues(key: string, data: seq<KeyValue>)
    requires key !in Keys(data)
    ensures Values(key, data) == []
    decreases |data|
  {
    if data != [] {
      assert data[|data| - 1] in data;
      forall kv | kv in data[..|data| - 1] ensures kv in data {
      }
      assert Keys(data[..|data| - 1]) <= Keys(data);
      NoValues(key, data[..|data| - 1]);
    }
  }

  lemma KeysConcat(a: seq<KeyValue>, b: seq<KeyValue>)
    ensures Keys(a + b) == Keys(a) + Keys(b)
  {
    forall k ensures k in Keys(a + b) <==> k in Keys(a) + Keys(b) {
    }
  }

  function One(key: string, kv: KeyValue): multiset<string> {
    if kv.key == key then multiset{kv.value} else multiset{}
  }

  lemma ValuesOfOne(key: string, kv: KeyValue)
    ensures multiset(Values(key, [kv])) == One(key, kv)
  {
    assert [kv][..0] == [];
  }

  /** Taking one pair out of the data takes its value out of its key's values. */
  lemma TakeOut(key: string, data: seq<KeyValue>, i: nat)
    requires i < |data|
    ensures multiset(Values(key, data)) == multiset(Values(key, data[..i] + data[i + 1..])) + One(key, data[i])
    ensures multiset(data) == multiset(data[..i] + data[i + 1..]) + multiset{data[i]}
  {
    hide Values, One;
    var a, b := data[..i], data[i + 1..];
    assert data == a + ([data[i]] + b);
    assert multiset(data) == multiset(a) + multiset{data[i]} + multiset(b);
    ValuesConcat(key, a, [data[i]] + b);
    ValuesConcat(key, [data[i]], b);
    ValuesConcat(key, a, b);
    ValuesOfOne(key, data[i]);
  }

  lemma KeysOfPermutation(a: seq<KeyValue>, b: seq<KeyValue>)
    requires multiset(a) == multiset(b)
    ensures Keys(a) == Keys(b)
  {
    forall kv ensures kv in a <==> kv in b {
      assert kv in multiset(a) <==> kv in multiset(b);
    }
  }

  /** The values of a key depend on the order of the data only in their order. */
  lemma {:induction false} ValuesOfPermutation(key: string, a: seq<KeyValue>, b: seq<KeyValue>)
    requires multiset(a) == multiset(b)
    ensures multiset(Values(key, a)) == multiset(Values(key, b))
    decreases |a|
  {
    hide Values;
    if a == [] {
      assert multiset(a) == multiset{};
      assert |b| == 0;
    } else {
      var i := |a| - 1;
      assert a[i] in multiset(b);
      var j :| 0 <= j < |b| && b[j] == a[i];
      TakeOut(key, a, i);
      TakeOut(key, b, j);
      assert multiset(a[..i] + a[i + 1..]) == multiset(a) - multiset{a[i]};
      assert multiset(b[..j] + b[j + 1..]) == multiset(b) - multiset{b[j]};
      ValuesOfPermutation(key, a[..i] + a[i + 1..], b[..j] + b[j + 1..]);
    }
  }

  // ----- the grouping loop, the same in both programs

  /** Equal keys are next to each other. */
  ghost predicate Grouped(data: seq<KeyValue>) {
    forall a, b, c {:trigger data[a], data[b], data[c]} :: 0 <= a < b < c < |data| && data[a].key == data[c].key ==>
      data[b].key == data[a].key
  }

  lemma SortedIsGrouped(data: seq<KeyValue>)
    requires Sorted(ByKey, data)
    ensures Grouped(data)
  {
    forall a, b, c | 0 <= a < b < c < |data| && data[a].key == data[c].key ensures data[b].key == data[a].key {
      StringLessIsTotal(data[a].key, data[b].key);
    }
  }

  lemma ByKeyIsStrictWeak()
    ensures StrictWeakOrder(ByKey)
  {
    StringLessIsStrictWeak();
    assert forall a: KeyValue, b: KeyValue :: ByKey(a, b) == StringLess(a.key, b.key);
  }

  /** A run of one key that occurs nowhere before becomes one more call. */
  lemma OneMoreCall(calls: seq<Call>, before: seq<KeyValue>, run: seq<KeyValue>, key: string, values: seq<string>)
    requires OnceEach(calls, before) && run != [] && key !in Keys(before)
    requires forall kv :: kv in run ==> kv.key == key
    requires values == Values(key, run)
    ensures OnceEach(calls + [Call(key, values)], before + run)
  {
    hide Values;
    var more := calls + [Call(key, values)];
    MoreKeys(calls, Call(key, values));
    KeysConcat(before, run);
    assert run[0] in run && Keys(run) == {key};
    NoValues(key, before);
    forall c | 0 <= c < |more| ensures multiset(more[c].values) == multiset(Values(more[c].key, before + run)) {
      ValuesConcat(more[c].key, before, run);
      if c < |calls| {
        assert calls[c] in calls && calls[c].key in Keys(before);
        NoValues(calls[c].key, run);
      }
    }
  }

  lemma MoreKeys(calls: seq<Call>, c: Call)
    requires DistinctKeys(calls) && c.key !in CallKeys(calls)
    ensures DistinctKeys(calls + [c]) && CallKeys(calls + [c]) == CallKeys(calls) + {c.key}
  {
    var more := calls + [c];
    forall d | d in calls ensures d.key in CallKeys(calls) {
    }
    assert forall d :: d in more <==> d in calls || d == c;
  }

  lemma NothingYet(data: seq<KeyValue>)
    ensures OnceEach([], data[..0])
  {
  }

  method CollectValues(data: seq<KeyValue>, i: nat, j: nat) returns (values: seq<string>)
    requires i < j <= |data| && forall k :: i <= k < j ==> data[k].key == data[i].key
    ensures values == Values(data[i].key, data[i..j])
  {
    values := [];
    for k := i to j
      invariant values == Values(data[i].key, data[i..k])
    {
      values := values + [data[k].value];
      assert data[i..k + 1][..k - i] == data[i..k];
    }
  }

  /** Runs over sorted data with two indices and reduces one run of equal keys after the other. */
  method ReduceRuns(data: seq<KeyValue>, reducef: (string, seq<string>) -> string) returns (lines: seq<string>)
    requires Grouped(data)
    ensures Reduced(data, reducef, lines) && Written(data, reducef, lines)
    ensures Sorted(ByKey, data) ==> ReducedInOrder(data, reducef, lines) && WrittenInOrder(data, reducef, lines)
  {
    hide Values, OnceEach, Keys, Ascending, Written, WrittenInOrder;
    NoneAscend();
    lines := [];
    ghost var calls: seq<Call> := [];
    var i := 0;
    NothingYet(data);
    while i < |data|
      invariant 0 <= i <= |data|
      invariant OnceEach(calls, data[..i]) && lines == LinesOf(reducef, calls)
      invariant Sorted(ByKey, data) ==> Ascending(calls)
      invariant 0 < i < |data| ==> data[i - 1].key != data[i].key
    {
      var j := i + 1;
      while j < |data| && data[j].key == data[i].key
        invariant i < j <= |data|
        invariant forall k :: i <= k < j ==> data[k].key == data[i].key
      {
        j := j + 1;
      }
      var values := CollectValues(data, i, j);
      NewKey(data, i);
      if Sorted(ByKey, data) {
        AscendsMore(calls, data, i, values);
      }
      OneMoreCall(calls, data[..i], data[i..j], data[i].key, values);
      assert data[..i] + data[i..j] == data[..j];
      var output := reducef(data[i].key, values);
      lines := lines + [Line(data[i].key, output)];
      calls := calls + [Call(data[i].key, values)];
      i := j;
    }
    assert data[..i] == data;
    ReducedIsWritten(data, reducef, lines);
  }

  lemma NoneAscend()
    ensures Ascending([])
  {
  }

  /** Where a new run starts in grouped data, its key has not occurred before. */
  lemma NewKey(data: seq<KeyValue>, i: nat)
    requires Grouped(data) && i < |data| && (i > 0 ==> data[i - 1].key != data[i].key)
    ensures data[i].key !in Keys(data[..i])
  {
    forall a | 0 <= a < i ensures data[a].key != data[i].key {
      assert a < i - 1 && data[i - 1].key != data[a].key ==> data[a].key != data[i].key;
    }
  }

  lemma OnceEachOfPermutation(calls: seq<Call>, a: seq<KeyValue>, b: seq<KeyValue>)
    requires OnceEach(calls, a) && multiset(a) == multiset(b)
    ensures OnceEach(calls, b)
  {
    KeysOfPermutation(a, b);
    forall c | 0 <= c < |calls| ensures multiset(calls[c].values) == multiset(Values(calls[c].key, b)) {
      ValuesOfPermutation(calls[c].key, a, b);
    }
  }

  method SortAndReduce(data: seq<KeyValue>, reducef: (string, seq<string>) -> string) returns (lines: seq<string>)
    ensures ReducedInOrder(data, reducef, lines) && WrittenInOrder(data, reducef, lines)
  {
    hide OnceEach, ReducedInOrder, WrittenInOrder;
    ByKeyIsStrictWeak();
    var sorted := Sort(ByKey, data);
    SortedIsGrouped(sorted);
    lines := ReduceRuns(sorted, reducef);
    InOrderOfPermutation(sorted, data, reducef, lines);
    ReducedIsWritten(data, reducef, lines);
  }

  // ----- the sequential program

  ghost function MapAll(mapf: (string, string) -> seq<KeyValue>, inputs: seq<Input>): seq<KeyValue> {
    if inputs == [] then []
    else MapAll(mapf, inputs[..|inputs| - 1]) + mapf(inputs[|inputs| - 1].name, inputs[|inputs| - 1].contents)
  }

  method Sequential(inputs: seq<Input>, mapf: (string, string) -> seq<KeyValue>,
          reducef: (string, seq<string>) -> string)
    returns (lines: seq<string>)
    ensures Reduced(MapAll(mapf, inputs), reducef, lines) && WrittenInOrder(MapAll(mapf, inputs), reducef, lines)
  {
    hide ReducedInOrder, WrittenInOrder, Reduced;
    var intermediate := [];
    for i := 0 to |inputs|
      invariant intermediate == MapAll(mapf, inputs[..i])
    {
      intermediate := intermediate + mapf(inputs[i].name, inputs[i].contents);
      assert inputs[..i + 1][..i] == inputs[..i];
    }
    assert inputs[..|inputs|] == inputs;
    lines := SortAndReduce(intermediate, reducef);
    ReducedIsWritten(intermediate, reducef, lines);
  }

  // ----- the distributed program

  /** What is emitted for one reduce task. */
  function Bucket(hash: string -> nat, nReduce: nat, r: nat, data: seq<KeyValue>): seq<KeyValue>
    requires nReduce > 0
  {
    if data == [] then []
    else
      var last := data[|data| - 1];
      Bucket(hash, nReduce, r, data[..|data| - 1]) + if hash(last.key) % nReduce == r then [last] else []
  }

  /** The bucket holds exactly the pairs whose key hashes to it, each as often as it was emitted. */
  lemma {:induction false} BucketCount(hash: string -> nat, nReduce: nat, r: nat, data: seq<KeyValue>, kv: KeyValue)
    requires nReduce > 0
    ensures multiset(Bucket(hash, nReduce, r, data))[kv]
         == if hash(kv.key) % nReduce == r then multiset(data)[kv] else 0
    decreases |data|
  {
    if data != [] {
      var front, last := data[..|data| - 1], data[|data| - 1];
      BucketCount(hash, nReduce, r, front, kv);
      assert data == front + [last];
      assert multiset(data) == multiset(front) + multiset{last};
    }
  }

  /** A map task's files, by the number of the reduce task they are for. There is a file for exactly
      the reduce tasks that get something. */
  method ExecuteMapTask(input: Input, nReduce: nat, mapf: (string, string) -> seq<KeyValue>, hash: string -> nat)
    returns (files: map<nat, seq<KeyValue>>)
    requires nReduce > 0
    ensures var data := mapf(input.name, input.contents);
      forall r: nat ::
        && (r in files <==> Bucket(hash, nReduce, r, data) != [])
        && (r in files ==> r < nReduce && files[r] == Bucket(hash, nReduce, r, data))
    ensures var data := mapf(input.name, input.contents);
      forall kv :: kv in data ==>
        && hash(kv.key) % nReduce in files
        && multiset(files[hash(kv.key) % nReduce])[kv] == multiset(data)[kv]
    ensures forall r, kv :: r in files && kv in files[r] ==> hash(kv.key) % nReduce == r
  {
    var initVal := mapf(input.name, input.contents);
    files := map[];
    for i := 0 to |initVal|
      invariant forall r: nat :: (r in files <==> Bucket(hash, nReduce, r, initVal[..i]) != [])
      invariant forall r :: r in files ==> r < nReduce && files[r] == Bucket(hash, nReduce, r, initVal[..i])
    {
      var kv := initVal[i];
      var currentPartition := hash(kv.key) % nReduce;
      assert initVal[..i + 1][..i] == initVal[..i];
      if currentPartition !in files {
        files := files[currentPartition := []];
      }
      files := files[currentPartition := files[currentPartition] + [kv]];
    }
    assert initVal[..|initVal|] == initVal;
    FilesHold(input, nReduce, mapf, hash, files);
  }

  lemma FilesHold(input: Input, nReduce: nat, mapf: (string, string) -> seq<KeyValue>, hash: string -> nat,
          files: map<nat, seq<KeyValue>>)
    requires nReduce > 0 && MapOutput(input, nReduce, mapf, hash, files)
    ensures var data := mapf(input.name, input.contents);
      forall kv :: kv in data ==>
        && hash(kv.key) % nReduce in files
        && multiset(files[hash(kv.key) % nReduce])[kv] == multiset(data)[kv]
    ensures forall r, kv :: r in files && kv in files[r] ==> hash(kv.key) % nReduce == r
  {
    hide Bucket;
    var data := mapf(input.name, input.contents);
    forall kv | kv in data
      ensures hash(kv.key) % nReduce in files && multiset(files[hash(kv.key) % nReduce])[kv] == multiset(data)[kv]
    {
      BucketCount(hash, nReduce, hash(kv.key) % nReduce, data, kv);
      assert kv in multiset(data);
    }
    forall r, kv | r in files && kv in files[r] ensures hash(kv.key) % nReduce == r {
      BucketCount(hash, nReduce, r, data, kv);
      assert kv in multiset(files[r]);
    }
  }

  /** The data of all map tasks in the order in which a reduce task happens to find their files. */
  ghost function Gathered(outputs: seq<map<nat, seq<KeyValue>>>, r: nat, order: seq<nat>): seq<KeyValue>
    requires forall i :: 0 <= i < |order| ==> order[i] < |outputs|
  {
    if order == [] then []
    else
      var m := order[|order| - 1];
      Gathered(outputs, r, order[..|order| - 1]) + if r in outputs[m] then outputs[m][r] else []
  }

  method ExecuteReduceTask(outputs: seq<map<nat, seq<KeyValue>>>, r: nat, order: seq<nat>,
          reducef: (string, seq<string>) -> string)
    returns (lines: seq<string>)
    requires forall i :: 0 <= i < |order| ==> order[i] < |outputs|
    ensures ReducedInOrder(Gathered(outputs, r, order), reducef, lines)
    ensures WrittenInOrder(Gathered(outputs, r, order), reducef, lines)
  {
    hide ReducedInOrder, WrittenInOrder;
    var data := [];
    for i := 0 to |order|
      invariant data == Gathered(outputs, r, order[..i])
    {
      if r in outputs[order[i]] {
        data := data + outputs[order[i]][r];
      }
      assert order[..i + 1][..i] == order[..i];
    }
    assert order[..|order|] == order;
    lines := SortAndReduce(data, reducef);
  }

  function Flatten<T>(parts: seq<seq<T>>): seq<T> {
    if parts == [] then [] else Flatten(parts[..|parts| - 1]) + parts[|parts| - 1]
  }

  /** Some order of all map tasks. */
  ghost predicate Listing(order: seq<nat>, n: nat) {
    multiset(order) == multiset(seq(n, i => i))
  }

  /** A whole run: every map task, then every reduce task, each finding the files in an order of its own. */
  method Distributed(inputs: seq<Input>, nReduce: nat, mapf: (string, string) -> seq<KeyValue>,
          reducef: (string, seq<string>) -> string, hash: string -> nat, orders: seq<seq<nat>>)
    returns (outs: seq<seq<string>>)
    requires nReduce > 0 && |orders| == nReduce && forall r :: 0 <= r < nReduce ==> Listing(orders[r], |inputs|)
    ensures |outs| == nReduce && Reduced(MapAll(mapf, inputs), reducef, Flatten(outs))
    ensures Written(MapAll(mapf, inputs), reducef, Flatten(outs))
    ensures forall r :: 0 <= r < nReduce ==>
      WrittenInOrder(Bucket(hash, nReduce, r, MapAll(mapf, inputs)), reducef, outs[r])
  {
    hide Reduced, ReducedInOrder, Written, WrittenInOrder, Listing, Bucket, Gathered;
    var outputs := [];
    for m := 0 to |inputs|
      invariant |outputs| == m && forall k :: 0 <= k < m ==> MapOutput(inputs[k], nReduce, mapf, hash, outputs[k])
    {
      var files := ExecuteMapTask(inputs[m], nReduce, mapf, hash);
      outputs := outputs + [files];
    }
    outs := [];
    ghost var data := MapAll(mapf, inputs);
    for r := 0 to nReduce
      invariant |outs| == r
      invariant forall k :: 0 <= k < r ==> Reduced(Bucket(hash, nReduce, k, data), reducef, outs[k])
      invariant forall k :: 0 <= k < r ==> WrittenInOrder(Bucket(hash, nReduce, k, data), reducef, outs[k])
    {
      ListingIndexes(orders[r], |inputs|);
      var lines := ExecuteReduceTask(outputs, r, orders[r], reducef);
      GatheredIsBucket(inputs, nReduce, mapf, hash, outputs, r, orders[r]);
      InOrderOfPermutation(Gathered(outputs, r, orders[r]), Bucket(hash, nReduce, r, data), reducef, lines);
      ReducedIsWritten(Bucket(hash, nReduce, r, data), reducef, lines);
      outs := outs + [lines];
    }
    ReducedTogether(hash, nReduce, data, reducef, outs);
    ReducedIsWritten(data, reducef, Flatten(outs));
  }

  ghost predicate MapOutput(input: Input, nReduce: nat, mapf: (string, string) -> seq<KeyValue>, hash: string -> nat,
          files: map<nat, seq<KeyValue>>)
    requires nReduce > 0
  {
    forall r: nat :: (r in files <==> Bucket(hash, nReduce, r, mapf(input.name, input.contents)) != [])
      && (r in files ==> files[r] == Bucket(hash, nReduce, r, mapf(input.name, input.contents)))
  }

  // ----- what a reduce task gathers is its part of the data

  lemma {:induction false} BucketConcat(hash: string -> nat, nReduce: nat, r: nat, a: seq<KeyValue>, b: seq<KeyValue>)
    requires nReduce > 0
    ensures Bucket(hash, nReduce, r, a + b) == Bucket(hash, nReduce, r, a) + Bucket(hash, nReduce, r, b)
    decreases |b|
  {
    if b == [] {
      assert a + b == a;
    } else {
      assert (a + b)[..|a + b| - 1] == a + b[..|b| - 1];
      BucketConcat(hash, nReduce, r, a, b[..|b| - 1]);
    }
  }

  function FileOf(files: map<nat, seq<KeyValue>>, r: nat): seq<KeyValue> {
    if r in files then files[r] else []
  }

  lemma {:induction false} GatheredConcat(outputs: seq<map<nat, seq<KeyValue>>>, r: nat, a: seq<nat>, b: seq<nat>)
    requires forall i :: 0 <= i < |a + b| ==> (a + b)[i] < |outputs|
    requires (forall i :: 0 <= i < |a| ==> a[i] < |outputs|) && forall i :: 0 <= i < |b| ==> b[i] < |outputs|
    ensures Gathered(outputs, r, a + b) == Gathered(outputs, r, a) + Gathered(outputs, r, b)
    decreases |b|
  {
    if b == [] {
      assert a + b == a;
    } else {
      assert (a + b)[..|a + b| - 1] == a + b[..|b| - 1];
      GatheredConcat(outputs, r, a, b[..|b| - 1]);
    }
  }

  lemma ListingIndexes(order: seq<nat>, n: nat)
    requires Listing(order, n)
    ensures |order| == n && forall i :: 0 <= i < |order| ==> order[i] < n
  {
    assert |order| == |multiset(order)| == |multiset(seq(n, i => i))| == n;
    forall i | 0 <= i < |order| ensures order[i] < n {
      assert order[i] in multiset(seq(n, i => i));
    }
  }

  lemma GatheredTakeOut(outputs: seq<map<nat, seq<KeyValue>>>, r: nat, order: seq<nat>, i: nat)
    requires i < |order| && forall k :: 0 <= k < |order| ==> order[k] < |outputs|
    ensures var rest := order[..i] + order[i + 1..];
      && (forall k :: 0 <= k < |rest| ==> rest[k] < |outputs|)
      && multiset(Gathered(outputs, r, order)) == multiset(Gathered(outputs, r, rest)) + multiset(FileOf(outputs[order[i]], r))
      && multiset(order) == multiset(rest) + multiset{order[i]}
  {
    hide Gathered;
    var a, b, one := order[..i], order[i + 1..], [order[i]];
    assert order == a + (one + b);
    assert multiset(order) == multiset(a) + multiset{order[i]} + multiset(b);
    GatheredConcat(outputs, r, a, one + b);
    GatheredConcat(outputs, r, one, b);
    GatheredConcat(outputs, r, a, b);
    GatheredOne(outputs, r, order[i]);
  }

  lemma GatheredOne(outputs: seq<map<nat, seq<KeyValue>>>, r: nat, m: nat)
    requires m < |outputs|
    ensures Gathered(outputs, r, [m]) == FileOf(outputs[m], r)
  {
    assert [m][..0] == [];
  }

  lemma {:induction false} GatheredOfPermutation(outputs: seq<map<nat, seq<KeyValue>>>, r: nat, a: seq<nat>,
          b: seq<nat>)
    requires (forall i :: 0 <= i < |a| ==> a[i] < |outputs|) && forall i :: 0 <= i < |b| ==> b[i] < |outputs|
    requires multiset(a) == multiset(b)
    ensures multiset(Gathered(outputs, r, a)) == multiset(Gathered(outputs, r, b))
    decreases |a|
  {
    hide Gathered;
    assert |a| == |multiset(a)| == |multiset(b)| == |b|;
    if a == [] {
    } else {
      var i := |a| - 1;
      assert a[i] in multiset(b);
      var j :| 0 <= j < |b| && b[j] == a[i];
      GatheredTakeOut(outputs, r, a, i);
      GatheredTakeOut(outputs, r, b, j);
      assert multiset(a[..i] + a[i + 1..]) == multiset(a) - multiset{a[i]};
      assert multiset(b[..j] + b[j + 1..]) == multiset(b) - multiset{b[j]};
      GatheredOfPermutation(outputs, r, a[..i] + a[i + 1..], b[..j] + b[j + 1..]);
    }
  }

  lemma {:induction false} GatheredInOrder(inputs: seq<Input>, nReduce: nat, mapf: (string, string) -> seq<KeyValue>,
          hash: string -> nat, outputs: seq<map<nat, seq<KeyValue>>>, r: nat, n: nat)
    requires nReduce > 0 && r < nReduce && |outputs| == |inputs| && n <= |inputs|
    requires forall m :: 0 <= m < |inputs| ==> MapOutput(inputs[m], nReduce, mapf, hash, outputs[m])
    ensures Gathered(outputs, r, seq(n, i => i)) == Bucket(hash, nReduce, r, MapAll(mapf, inputs[..n]))
    decreases n
  {
    if n > 0 {
      GatheredInOrder(inputs, nReduce, mapf, hash, outputs, r, n - 1);
      var order := seq(n, i => i);
      assert order[..n - 1] == seq(n - 1, i => i);
      assert inputs[..n][..n - 1] == inputs[..n - 1];
      var last := inputs[n - 1];
      assert MapOutput(last, nReduce, mapf, hash, outputs[n - 1]);
      BucketConcat(hash, nReduce, r, MapAll(mapf, inputs[..n - 1]), mapf(last.name, last.contents));
    }
  }

  lemma GatheredIsBucket(inputs: seq<Input>, nReduce: nat, mapf: (string, string) -> seq<KeyValue>, hash: string -> nat,
                         outputs: seq<map<nat, seq<KeyValue>>>, r: nat, order: seq<nat>)
    requires nReduce > 0 && r < nReduce && |outputs| == |inputs| && Listing(order, |inputs|)
    requires forall m :: 0 <= m < |inputs| ==> MapOutput(inputs[m], nReduce, mapf, hash, outputs[m])
    requires forall i :: 0 <= i < |order| ==> order[i] < |outputs|
    ensures multiset(Gathered(outputs, r, order)) == multiset(Bucket(hash, nReduce, r, MapAll(mapf, inputs)))
  {
    var n := |inputs|;
    GatheredInOrder(inputs, nReduce, mapf, hash, outputs, r, n);
    assert inputs[..n] == inputs;
    GatheredOfPermutation(outputs, r, order, seq(n, i => i));
  }

  // ----- the parts together are the whole

  lemma {:induction false} BucketFacts(hash: string -> nat, nReduce: nat, r: nat, data: seq<KeyValue>, key: string)
    requires nReduce > 0
    ensures key in Keys(Bucket(hash, nReduce, r, data)) <==> key in Keys(data) && hash(key) % nReduce == r
    ensures hash(key) % nReduce == r ==> Values(key, Bucket(hash, nReduce, r, data)) == Values(key, data)
    decreases |data|
  {
    if data != [] {
      var front, last := data[..|data| - 1], data[|data| - 1];
      BucketFacts(hash, nReduce, r, front, key);
      assert data == front + [last];
      KeysConcat(front, [last]);
      var part := if hash(last.key) % nReduce == r then [last] else [];
      KeysConcat(Bucket(hash, nReduce, r, front), part);
      ValuesConcat(key, Bucket(hash, nReduce, r, front), part);
      assert [last][..0] == [];
    }
  }

  /** The reduce calls of the first `m` parts: one for each key that is hashed below `m`. */
  lemma {:induction false} PartsTogether(hash: string -> nat, nReduce: nat, data: seq<KeyValue>, calls: seq<seq<Call>>,
          m: nat)
    requires nReduce > 0 && m <= |calls|
    requires forall r :: 0 <= r < |calls| ==> OnceEach(calls[r], Bucket(hash, nReduce, r, data))
    ensures DistinctKeys(Flatten(calls[..m])) && RightValues(Flatten(calls[..m]), data)
    ensures forall k :: k in CallKeys(Flatten(calls[..m])) <==> k in Keys(data) && hash(k) % nReduce < m
    decreases m
  {
    if m > 0 {
      PartsTogether(hash, nReduce, data, calls, m - 1);
      assert calls[..m][..m - 1] == calls[..m - 1];
      var before, part := Flatten(calls[..m - 1]), calls[m - 1];
      assert OnceEach(part, Bucket(hash, nReduce, m - 1, data));
      forall k ensures k in CallKeys(part) <==> k in Keys(data) && hash(k) % nReduce == m - 1 {
        BucketFacts(hash, nReduce, m - 1, data, k);
      }
      OnePart(hash, nReduce, data, m - 1, part);
      hide Keys, Values, Bucket, OnceEach;
      CallsConcat(before, part, data);
    }
  }

  lemma OnePart(hash: string -> nat, nReduce: nat, data: seq<KeyValue>, r: nat, part: seq<Call>)
    requires nReduce > 0 && OnceEach(part, Bucket(hash, nReduce, r, data))
    ensures RightValues(part, data)
  {
    forall c | 0 <= c < |part| ensures multiset(part[c].values) == multiset(Values(part[c].key, data)) {
      assert part[c] in part && part[c].key in CallKeys(part);
      BucketFacts(hash, nReduce, r, data, part[c].key);
    }
  }

  lemma CallsConcat(a: seq<Call>, b: seq<Call>, data: seq<KeyValue>)
    requires DistinctKeys(a) && DistinctKeys(b) && CallKeys(a) !! CallKeys(b) && RightValues(a, data)
    requires RightValues(b, data)
    ensures DistinctKeys(a + b) && RightValues(a + b, data) && CallKeys(a + b) == CallKeys(a) + CallKeys(b)
  {
    forall c, d | 0 <= c < d < |a + b| ensures (a + b)[c].key != (a + b)[d].key {
      if c < |a| <= d {
        assert a[c] in a && a[c].key in CallKeys(a);
        assert b[d - |a|] in b && b[d - |a|].key in CallKeys(b);
      }
    }
    forall k ensures k in CallKeys(a + b) <==> k in CallKeys(a) + CallKeys(b) {
      if k in CallKeys(a) {
        var c :| c in a && c.key == k;
        assert c in a + b;
      }
      if k in CallKeys(b) {
        var c :| c in b && c.key == k;
        assert c in a + b;
      }
    }
  }

  /** Over all partitions together, each key is reduced exactly once with its own values. */
  lemma TogetherOnceEach(hash: string -> nat, nReduce: nat, data: seq<KeyValue>, calls: seq<seq<Call>>)
    requires nReduce > 0 && |calls| == nReduce
    requires forall r :: 0 <= r < nReduce ==> OnceEach(calls[r], Bucket(hash, nReduce, r, data))
    ensures OnceEach(Flatten(calls), data)
  {
    PartsTogether(hash, nReduce, data, calls, nReduce);
    assert calls[..nReduce] == calls;
    hide Keys, Bucket, Values;
    forall k ensures k in CallKeys(Flatten(calls)) <==> k in Keys(data) {
    }
  }

  lemma ReducedTogether(hash: string -> nat, nReduce: nat, data: seq<KeyValue>,
          reducef: (string, seq<string>) -> string, outs: seq<seq<string>>)
    requires nReduce > 0 && |outs| == nReduce
    requires forall r :: 0 <= r < nReduce ==> Reduced(Bucket(hash, nReduce, r, data), reducef, outs[r])
    ensures Reduced(data, reducef, Flatten(outs))
  {
    hide OnceEach, Bucket, LinesOf;
    var calls := seq(nReduce, r requires 0 <= r < nReduce => CallsOf(Bucket(hash, nReduce, r, data), reducef, outs[r]));
    TogetherOnceEach(hash, nReduce, data, calls);
    FlattenLines(reducef, calls, outs);
  }

  // ----- agreement

  /** The same keys, each with the same values up to their order. */
  ghost predicate SameCalls(a: seq<Call>, b: seq<Call>) {
    && DistinctKeys(a) && DistinctKeys(b) && CallKeys(a) == CallKeys(b)
    && forall c, d :: c in a && d in b && c.key == d.key ==> multiset(c.values) == multiset(d.values)
  }

  lemma OnceEachSame(a: seq<Call>, b: seq<Call>, data: seq<KeyValue>)
    requires OnceEach(a, data) && OnceEach(b, data)
    ensures SameCalls(a, b)
  {
    hide Values, Keys;
    forall c, d | c in a && d in b && c.key == d.key ensures multiset(c.values) == multiset(d.values) {
      var i :| 0 <= i < |a| && a[i] == c;
      var j :| 0 <= j < |b| && b[j] == d;
    }
  }

  /** Without the call of one key. */
  lemma DropCall(a: seq<Call>, i: nat)
    requires DistinctKeys(a) && i < |a|
    ensures DistinctKeys(a[..i] + a[i + 1..]) && CallKeys(a[..i] + a[i + 1..]) == CallKeys(a) - {a[i].key}
    ensures forall c :: c in a[..i] + a[i + 1..] ==> c in a
  {
    var front, back := a[..i], a[i + 1..];
    assert a == front + [a[i]] + back;
    CallKeysConcat(front, [a[i]]);
    CallKeysConcat(front + [a[i]], back);
    CallKeysConcat(front, back);
    assert CallKeys([a[i]]) == {a[i].key} by { assert a[i] in [a[i]]; }
    forall c | c in front + back ensures c in a && c.key != a[i].key {
    }
    hide DistinctKeys;
  }

  lemma CallKeysConcat(a: seq<Call>, b: seq<Call>)
    ensures CallKeys(a + b) == CallKeys(a) + CallKeys(b)
  {
    forall c ensures c in a + b <==> c in a || c in b {
    }
  }

  lemma SomeKey(a: seq<Call>)
    ensures a != [] ==> CallKeys(a) != {}
  {
    if a != [] {
      assert a[0].key in CallKeys(a);
    }
  }

  lemma LinesTakeOut(reducef: (string, seq<string>) -> string, calls: seq<Call>, i: nat)
    requires i < |calls|
    ensures multiset(LinesOf(reducef, calls))
         == multiset(LinesOf(reducef, calls[..i] + calls[i + 1..])) + multiset{LineOf(reducef, calls[i])}
  {
    var a, b := LinesOf(reducef, calls[..i]), LinesOf(reducef, calls[i + 1..]);
    assert LinesOf(reducef, calls) == a + [LineOf(reducef, calls[i])] + b;
    assert LinesOf(reducef, calls[..i] + calls[i + 1..]) == a + b;
  }

  /** For a reduce function that does not depend on the order of values, the lines are a permutation. */
  lemma {:induction false} SameLines(reducef: (string, seq<string>) -> string, a: seq<Call>, b: seq<Call>)
    requires SameCalls(a, b) && OrderInsensitive(reducef)
    ensures multiset(LinesOf(reducef, a)) == multiset(LinesOf(reducef, b))
    decreases |a|
  {
    if a == [] {
      assert CallKeys(b) == {};
      SomeKey(b);
    } else {
      var i := |a| - 1;
      assert a[i] in a && a[i].key in CallKeys(b);
      var j :| 0 <= j < |b| && b[j].key == a[i].key;
      assert multiset(a[i].values) == multiset(b[j].values);
      assert LineOf(reducef, a[i]) == LineOf(reducef, b[j]);
      DropCall(a, i);
      DropCall(b, j);
      LinesTakeOut(reducef, a, i);
      LinesTakeOut(reducef, b, j);
      SameLines(reducef, a[..i] + a[i + 1..], b[..j] + b[j + 1..]);
    }
  }

  lemma {:induction false} FlattenLines(reducef: (string, seq<string>) -> string, calls: seq<seq<Call>>,
          outs: seq<seq<string>>)
    requires |outs| == |calls| && forall r :: 0 <= r < |calls| ==> outs[r] == LinesOf(reducef, calls[r])
    ensures Flatten(outs) == LinesOf(reducef, Flatten(calls))
    decreases |calls|
  {
    if calls != [] {
      var n := |calls| - 1;
      FlattenLines(reducef, calls[..n], outs[..n]);
      assert LinesOf(reducef, Flatten(calls[..n]) + calls[n])
          == LinesOf(reducef, Flatten(calls[..n])) + LinesOf(reducef, calls[n]);
    }
  }

  /** Whatever reduces every key of the same data once writes the same lines. */
  lemma ReducedAgree(data: seq<KeyValue>, reducef: (string, seq<string>) -> string, lines: seq<string>,
          more: seq<string>)
    requires Reduced(data, reducef, lines) && Reduced(data, reducef, more) && OrderInsensitive(reducef)
    ensures multiset(lines) == multiset(more)
  {
    hide OnceEach, OrderInsensitive, SameCalls;
    var a, b := CallsOf(data, reducef, lines), CallsOf(data, reducef, more);
    OnceEachSame(a, b, data);
    SameLines(reducef, a, b);
  }

  /** Both programs on the same inputs: the lines of all reduce tasks together are a permutation of the
      sequential program's, whatever the hash, the number of reduce tasks and the order files are found in. */
  method RunBoth(inputs: seq<Input>, nReduce: nat, mapf: (string, string) -> seq<KeyValue>,
          reducef: (string, seq<string>) -> string, hash: string -> nat, orders: seq<seq<nat>>)
    returns (lines: seq<string>, outs: seq<seq<string>>)
    requires nReduce > 0 && |orders| == nReduce && forall r :: 0 <= r < nReduce ==> Listing(orders[r], |inputs|)
    ensures |outs| == nReduce && WrittenInOrder(MapAll(mapf, inputs), reducef, lines)
    ensures OrderInsensitive(reducef) ==> multiset(Flatten(outs)) == multiset(lines)
  {
    hide OnceEach, Listing, OrderInsensitive, SameCalls, Reduced, Written, WrittenInOrder;
    lines := Sequential(inputs, mapf, reducef);
    outs := Distributed(inputs, nReduce, mapf, reducef, hash, orders);
    if OrderInsensitive(reducef) {
      ReducedAgree(MapAll(mapf, inputs), reducef, Flatten(outs), lines);
    }
  }
}
