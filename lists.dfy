/**
 * Walking a list while asking the data source about each element, as
 * Kotlin's `mapNotNull` does: an element whose lookup gives null is left
 * out and the walk goes on.  Also the request lists such walks make.
 */
module Lists {
  import opened DataSource

  /** The requests made by running `step` on each element of `xs`, in order. */
  function CallsOf<X, Y>(xs: seq<X>, step: X -> Logged<Y>): seq<Call>
    decreases |xs|
  {
    if xs == [] then [] else step(xs[0]).calls + CallsOf(xs[1..], step)
  }

  /** The request `call(x)` for each element `x` of `xs`, in order. */
  function OneCallEach<X>(xs: seq<X>, call: X -> Call): seq<Call>
  {
    seq(|xs|, i requires 0 <= i < |xs| => call(xs[i]))
  }

  /** The profile request for each user, in order. */
  function ProfileCalls(users: seq<User>): seq<Call>
  {
    OneCallEach(users, (u: User) => ProfileCall(u.id))
  }

  /** When each step makes exactly one request, the walk makes one request per element. */
  lemma {:induction false} CallsOfOneEach<X, Y>(xs: seq<X>, step: X -> Logged<Y>, call: X -> Call)
    requires forall i :: 0 <= i < |xs| ==> step(xs[i]).calls == [call(xs[i])]
    ensures CallsOf(xs, step) == OneCallEach(xs, call)
  {
    if xs != [] {
      assert forall i :: 0 <= i < |xs[1..]| ==> xs[1..][i] == xs[i + 1];
      CallsOfOneEach(xs[1..], step, call);
      assert OneCallEach(xs, call) == [call(xs[0])] + OneCallEach(xs[1..], call);
    }
  }

  /**
   * Kotlin's mapNotNull whose lambda may ask the data source: every element is
   * looked at once, in order, and its value is kept when the lambda gives one.
   */
  function MapNotNull<X, Y>(xs: seq<X>, transform: X -> Logged<Option<Y>>): (r: Logged<seq<Y>>)
    ensures |r.value| <= |xs|
    ensures r.calls == CallsOf(xs, transform)
    decreases |xs|
  {
    if xs == [] then Logged([], [])
    else
      var head := transform(xs[0]);
      var tail := MapNotNull(xs[1..], transform);
      Logged((if head.value.Some? then [head.value.value] else []) + tail.value, head.calls + tail.calls)
  }

  ghost predicate StrictlyIncreasing(idx: seq<int>)
  {
    forall k, l :: 0 <= k < l < |idx| ==> idx[k] < idx[l]
  }

  /** The value at each position `idx[k]` of `xs` is `kept[k]`. */
  ghost predicate KeptAt<X, Y>(xs: seq<X>, transform: X -> Logged<Option<Y>>, kept: seq<Y>, idx: seq<int>)
  {
    && |idx| == |kept|
    && forall k :: 0 <= k < |idx| ==> 0 <= idx[k] < |xs| && transform(xs[idx[k]]).value == Some(kept[k])
  }

  /** Every position at which `transform` gave a value is among `idx`. */
  ghost predicate NoneDropped<X, Y>(xs: seq<X>, transform: X -> Logged<Option<Y>>, idx: seq<int>)
  {
    forall i :: 0 <= i < |xs| && transform(xs[i]).value.Some? ==> i in idx
  }

  /**
   * `kept` is the in-order subsequence of the values `transform` gave for
   * the elements of `xs`: `idx` names, in increasing order, exactly the
   * positions of `xs` at which a value was given.
   */
  ghost predicate KeptInOrder<X, Y>(xs: seq<X>, transform: X -> Logged<Option<Y>>, kept: seq<Y>, idx: seq<int>)
  {
    StrictlyIncreasing(idx) && KeptAt(xs, transform, kept, idx) && NoneDropped(xs, transform, idx)
  }

  /** Each position in `rest`, moved one place to the right. */
  function PlusOne(rest: seq<int>): (r: seq<int>)
    ensures |r| == |rest| && forall k :: 0 <= k < |rest| ==> r[k] == rest[k] + 1
  {
    seq(|rest|, k requires 0 <= k < |rest| => rest[k] + 1)
  }

  /** The positions `rest` of a list's tail as positions of the whole list, after position 0 when `withHead`. */
  function Shifted(rest: seq<int>, withHead: bool): seq<int>
  {
    (if withHead then [0] else []) + PlusOne(rest)
  }

  lemma ShiftedIncreasing(rest: seq<int>, withHead: bool)
    requires StrictlyIncreasing(rest) && forall k :: 0 <= k < |rest| ==> 0 <= rest[k]
    ensures StrictlyIncreasing(Shifted(rest, withHead))
  {
    var moved := PlusOne(rest);
    assert StrictlyIncreasing(moved) by {
      forall k, l | 0 <= k < l < |moved| ensures moved[k] < moved[l] {
        assert rest[k] < rest[l];
      }
    }
    if withHead {
      var idx := [0] + moved;
      forall k, l | 0 <= k < l < |idx| ensures idx[k] < idx[l] {
        assert idx[l] == moved[l - 1] == rest[l - 1] + 1;
        if 0 < k {
          assert idx[k] == moved[k - 1];
        }
      }
      assert Shifted(rest, withHead) == idx;
    } else {
      assert Shifted(rest, withHead) == moved;
    }
  }

  lemma ShiftedKeptAt<X, Y>(xs: seq<X>, transform: X -> Logged<Option<Y>>, keptTail: seq<Y>, rest: seq<int>)
    requires xs != [] && KeptAt(xs[1..], transform, keptTail, rest)
    ensures var head := transform(xs[0]).value;
      KeptAt(xs, transform, (if head.Some? then [head.value] else []) + keptTail, Shifted(rest, head.Some?))
  {
    var head := transform(xs[0]).value;
    var kept := (if head.Some? then [head.value] else []) + keptTail;
    var idx := Shifted(rest, head.Some?);
    var d := if head.Some? then 1 else 0;
    var moved := PlusOne(rest);
    assert idx == (if head.Some? then [0] else []) + moved;
    forall k | 0 <= k < |idx|
      ensures 0 <= idx[k] < |xs| && transform(xs[idx[k]]).value == Some(kept[k])
    {
      if k >= d {
        assert idx[k] == moved[k - d] == rest[k - d] + 1 && kept[k] == keptTail[k - d];
        assert xs[idx[k]] == xs[1..][rest[k - d]];
      }
    }
  }

  lemma ShiftedNoneDropped<X, Y>(xs: seq<X>, transform: X -> Logged<Option<Y>>, rest: seq<int>)
    requires xs != [] && NoneDropped(xs[1..], transform, rest)
    ensures NoneDropped(xs, transform, Shifted(rest, transform(xs[0]).value.Some?))
  {
    var withHead := transform(xs[0]).value.Some?;
    var idx := Shifted(rest, withHead);
    var d := if withHead then 1 else 0;
    var moved := PlusOne(rest);
    assert idx == (if withHead then [0] else []) + moved;
    forall i | 0 <= i < |xs| && transform(xs[i]).value.Some?
      ensures i in idx
    {
      if i > 0 {
        assert xs[1..][i - 1] == xs[i];
        var k :| 0 <= k < |rest| && rest[k] == i - 1;
        assert moved[k] == i;
        assert idx[k + d] == i;
      } else {
        assert idx[0] == 0;
      }
    }
  }

  /** mapNotNull drops exactly the elements whose lambda gave null, and keeps the order of the rest. */
  lemma {:induction false} MapNotNullKeepsInOrder<X, Y>(xs: seq<X>, transform: X -> Logged<Option<Y>>)
    returns (idx: seq<int>)
    ensures KeptInOrder(xs, transform, MapNotNull(xs, transform).value, idx)
  {
    if xs == [] {
      idx := [];
    } else {
      var rest := MapNotNullKeepsInOrder(xs[1..], transform);
      var keptTail := MapNotNull(xs[1..], transform).value;
      var withHead := transform(xs[0]).value.Some?;
      idx := Shifted(rest, withHead);
      ShiftedIncreasing(rest, withHead);
      ShiftedKeptAt(xs, transform, keptTail, rest);
      ShiftedNoneDropped(xs, transform, rest);
    }
  }

  /** When the lambda never gives null, mapNotNull keeps every element, in place. */
  lemma {:induction false} MapNotNullKeepsAll<X, Y>(xs: seq<X>, transform: X -> Logged<Option<Y>>)
    requires forall i :: 0 <= i < |xs| ==> transform(xs[i]).value.Some?
    ensures |MapNotNull(xs, transform).value| == |xs|
    ensures forall i :: 0 <= i < |xs| ==> MapNotNull(xs, transform).value[i] == transform(xs[i]).value.value
  {
    if xs != [] {
      assert forall i :: 0 <= i < |xs[1..]| ==> xs[1..][i] == xs[i + 1];
      MapNotNullKeepsAll(xs[1..], transform);
    }
  }
}
