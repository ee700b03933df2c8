/** Histories: sequences of call and return entries, and the decision problem they pose. */
module Histories {
  import opened Linearizability

  datatype Kind = Call | Return

  datatype Entry<V> = Entry(kind: Kind, value: V, id: int, time: int)

  type History<V> = seq<Entry<V>>

  /** Operation `id` is called at position `c` and returns at position `r`, and has no other entry. */
  ghost predicate OpAt<V>(h: History<V>, id: int, c: int, r: int) {
    && 0 <= c < r < |h|
    && h[c].id == id && h[c].kind == Call
    && h[r].id == id && h[r].kind == Return
    && forall i :: 0 <= i < |h| && h[i].id == id ==> i == c || i == r
  }

  ghost predicate HasOp<V>(h: History<V>, id: int) {
    exists c, r :: OpAt(h, id, c, r)
  }

  function Size<V>(h: History<V>): nat {
    |h| / 2
  }

  /** Ids are 0..n-1 and each has exactly one call, before exactly one return. */
  ghost predicate WellFormed<V>(h: History<V>) {
    && |h| % 2 == 0
    && (forall i :: 0 <= i < |h| ==> 0 <= h[i].id < Size(h))
    && forall id :: 0 <= id < Size(h) ==> HasOp(h, id)
  }

  ghost function Span<V>(h: History<V>, id: int): (span: (int, int))
    requires HasOp(h, id)
    ensures OpAt(h, id, span.0, span.1)
  {
    var c, r :| OpAt(h, id, c, r); (c, r)
  }

  /** The operations of a history, and which returned before which was called. */
  ghost function ToProblem<V>(h: History<V>): (p: Problem<V>)
    requires WellFormed(h)
    ensures |p.ops| == Size(h) && Irreflexive(p)
  {
    var n := Size(h);
    Problem(seq(n, id requires 0 <= id < n => (h[Span(h, id).0].value, h[Span(h, id).1].value)),
            set a, b | 0 <= a < n && 0 <= b < n && Earlier(h, a, b) :: (a, b))
  }

  /** Operation `a` returns before operation `b` is called. */
  ghost predicate Earlier<V>(h: History<V>, a: int, b: int)
    requires HasOp(h, a) && HasOp(h, b)
  {
    Span(h, a).1 < Span(h, b).0
  }

  /** The position of an entry determines whether its operation has been called or returned. */
  lemma EntryIsCallOrReturn<V>(h: History<V>, i: int)
    requires WellFormed(h) && 0 <= i < |h|
    ensures HasOp(h, h[i].id)
    ensures i == if h[i].kind == Call then Span(h, h[i].id).0 else Span(h, h[i].id).1
  {
  }
}
