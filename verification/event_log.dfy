/** The event log: newest entry first, at most `Capacity` entries. Each entry
    holds the classified event, not the full message text. */
module EventLog {
  import opened Events

  /** How many entries the log keeps; older ones fall off the end. */
  const Capacity: nat := 50

  /** One logged message, as its classified event, and the instant it arrived. */
  datatype Entry = Entry(timestamp: int, data: Event)

  function Min(a: int, b: int): int
  {
    if a <= b then a else b
  }

  /** The first `Capacity` elements of `xs`, or all of them when there are fewer. */
  function Cap<T>(xs: seq<T>): seq<T>
  {
    xs[..Min(|xs|, Capacity)]
  }

  /** `addEvent`: the new entry goes in front, the old log keeps its first 49
      entries behind it. */
  function Push(log: seq<Entry>, e: Entry): (r: seq<Entry>)
    ensures |r| == Min(|log| + 1, Capacity)
    ensures r[0] == e
    ensures r[1..] == log[..Min(|log|, Capacity - 1)]
    ensures r == Cap([e] + log)
  {
    [e] + log[..Min(|log|, Capacity - 1)]
  }

  /** Capping a suffix first does not change the capped whole. */
  lemma CapAbsorbs<T>(a: seq<T>, b: seq<T>)
    ensures Cap(a + Cap(b)) == Cap(a + b)
  {
    var l := Cap(a + Cap(b));
    var r := Cap(a + b);
    assert |l| == |r|;
    forall i | 0 <= i < |l|
      ensures l[i] == r[i]
    {
      if i >= |a| {
        assert l[i] == Cap(b)[i - |a|];
      }
    }
  }

  /** `xs` newest-last turned into newest-first. */
  function Reverse<T>(xs: seq<T>): (r: seq<T>)
    ensures |r| == |xs|
    ensures forall i :: 0 <= i < |xs| ==> r[i] == xs[|xs| - 1 - i]
  {
    if xs == [] then [] else Reverse(xs[1..]) + [xs[0]]
  }

  lemma {:induction false} ReverseAt<T>(xs: seq<T>, i: int)
    requires 0 <= i < |xs|
    ensures Reverse(xs)[i] == xs[|xs| - 1 - i]
  {
  }

  /** The capped reversal of `xs` is the reversal of its last `Capacity` elements. */
  lemma {:induction false} CapOfReverse<T>(xs: seq<T>)
    ensures Cap(Reverse(xs)) == Reverse(xs[|xs| - Min(|xs|, Capacity)..])
  {
    var k := Min(|xs|, Capacity);
    ReversePrefix(xs, k);
  }

  /** The first `k` elements of the reversal are the reversal of the last `k`. */
  lemma {:induction false} ReversePrefix<T>(xs: seq<T>, k: nat)
    requires k <= |xs|
    ensures Reverse(xs)[..k] == Reverse(xs[|xs| - k..])
  {
    var suffix := xs[|xs| - k..];
    var l := Reverse(xs)[..k];
    var r := Reverse(suffix);
    forall i | 0 <= i < k
      ensures l[i] == r[i]
    {
      ReverseAt(xs, i);
      ReverseAt(suffix, i);
      assert suffix[k - 1 - i] == xs[|xs| - 1 - i];
    }
  }
}
