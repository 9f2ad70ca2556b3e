/** Results, the loaders' error kinds, and the two collection shapes the
    loaders are built from: an order-preserving list comprehension that may
    raise, and a dictionary comprehension keyed by an index. */
module Common {

  datatype Option<+T> = None | Some(value: T)

  /** The exceptions the loaders can raise, as values. */
  datatype Error =
    | MissingColumn(column: string)       // KeyError: a row or record lacks a field
    | UnknownJoint(key: real)             // KeyError: no joint with that index was loaded
    | NotANumber(text: string)            // ValueError from float() or int()
    | NotAPair(text: string, parts: nat)  // ValueError: the joints cell does not unpack into two parts
    | IndexOutOfRange(index: nat)         // IndexError: a JSON `joints` list is too short
    | UnknownTrackAxis(axis: string)      // ValueError from the track-axis conversion
    | MathDomain(value: real)             // ValueError from math.sqrt of a negative number

  /** A value, or the exception that aborted its computation. */
  datatype Result<+T> = Ok(value: T) | Err(error: Error) {
    predicate IsFailure() { Err? }

    function PropagateFailure<U>(): Result<U>
      requires Err?
    {
      Err(error)
    }

    function Extract(): T
      requires Ok?
    {
      value
    }
  }

  /** Completion of an operation that returns nothing but may raise. */
  datatype Outcome = Pass | Fail(error: Error)

  /** `[f(x) for x in xs]` */
  function MapSeq<T, U>(xs: seq<T>, f: T -> U): (ys: seq<U>)
    ensures |ys| == |xs|
    ensures forall i :: 0 <= i < |xs| ==> ys[i] == f(xs[i])
    decreases |xs|
  {
    if xs == [] then [] else [f(xs[0])] + MapSeq(xs[1..], f)
  }

  /** `[f(i, x) for i, x in enumerate(xs)]` where `f` may raise: the elements
      are computed in order, and the first exception aborts the whole list. */
  function TryMap<T, U>(xs: seq<T>, f: (nat, T) -> Result<U>): (r: Result<seq<U>>)
    ensures r.Ok? <==> forall i :: 0 <= i < |xs| ==> f(i, xs[i]).Ok?
    ensures r.Ok? ==> |r.value| == |xs|
    ensures r.Ok? ==> forall i :: 0 <= i < |xs| ==> f(i, xs[i]) == Ok(r.value[i])
    ensures r.Err? ==>
      exists i :: 0 <= i < |xs| && f(i, xs[i]) == Err(r.error) &&
        forall j :: 0 <= j < i ==> f(j, xs[j]).Ok?
    decreases |xs|
  {
    if xs == [] then Ok([])
    else
      var init := xs[..|xs| - 1];
      var last := |xs| - 1;
      assert forall i :: 0 <= i < |init| ==> init[i] == xs[i];
      match TryMap(init, f)
      case Err(e) => Err(e)
      case Ok(us) =>
        match f(last, xs[last])
        case Err(e) => Err(e)
        case Ok(u) => Ok(us + [u])
  }

  /** `{key(x): x for x in xs}`: a later element overwrites an earlier one
      with the same key. */
  function IndexBy<T>(xs: seq<T>, key: T -> int): (m: map<int, T>)
    ensures m.Keys == set i | 0 <= i < |xs| :: key(xs[i])
    ensures forall k :: k in m ==> key(m[k]) == k && m[k] in xs
    decreases |xs|
  {
    if xs == [] then map[]
    else
      var init := xs[..|xs| - 1];
      var last := xs[|xs| - 1];
      assert forall i :: 0 <= i < |init| ==> init[i] == xs[i];
      assert xs == init + [last];
      IndexBy(init, key)[key(last) := last]
  }

  /** Last one wins: the entry for a key is the last element carrying it. */
  lemma {:induction false} IndexByLastWins<T>(xs: seq<T>, key: T -> int, i: nat)
    requires i < |xs|
    requires forall j :: i < j < |xs| ==> key(xs[j]) != key(xs[i])
    ensures key(xs[i]) in IndexBy(xs, key)
    ensures IndexBy(xs, key)[key(xs[i])] == xs[i]
  {
    if i < |xs| - 1 {
      var init := xs[..|xs| - 1];
      assert init[i] == xs[i];
      IndexByLastWins(init, key, i);
    }
  }
}
