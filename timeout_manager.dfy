// The visibility-timeout monitor of a running job: every check computes the
// timeout the message should now have and asks SQS for it once it exceeds the
// queue's default, until the maximum is reached.

module Timeouts {
  import opened Common

  const DefaultTimeout: int := 600
  const MaxTimeout: int := 1800
  const TimeoutCheckInterval: int := 300
  const TimeoutBuffer: int := 300

  /** Python's `int()` on a float: truncation toward zero. */
  function Trunc(x: real): (r: int)
    ensures x >= 0.0 ==> r as real <= x < r as real + 1.0
    ensures x < 0.0 ==> r as real - 1.0 < x <= r as real
  {
    if x >= 0.0 then x.Floor else -((-x).Floor)
  }

  /** The timeout a check computes from the elapsed seconds. */
  function NewTimeout(elapsed: real): (r: int)
    ensures r <= MaxTimeout
    ensures elapsed + TimeoutBuffer as real >= MaxTimeout as real ==> r == MaxTimeout
    ensures 0.0 <= elapsed + TimeoutBuffer as real < MaxTimeout as real ==> r < MaxTimeout
    ensures elapsed >= -(TimeoutBuffer as real) && r < MaxTimeout ==>
              r as real <= elapsed + TimeoutBuffer as real < r as real + 1.0
  {
    Min(Trunc(elapsed + TimeoutBuffer as real), MaxTimeout)
  }

  /** The visibility changes requested, in order, when the checks see the
      elapsed times `readings`; the outcome of a request is only logged, so
      it does not appear. */
  function Requests(readings: seq<real>): (r: seq<int>)
    ensures |r| <= |readings|
    ensures (forall i :: 0 <= i < |readings| ==> NewTimeout(readings[i]) <= DefaultTimeout) ==> r == []
  {
    if readings == [] then []
    else
      var t := NewTimeout(readings[0]);
      if t <= DefaultTimeout then Requests(readings[1..])
      else if t >= MaxTimeout then [t]
      else [t] + Requests(readings[1..])
  }

  /** How many checks are made before the monitor stops by itself (all of
      `readings` when no check reaches the maximum). */
  function Checks(readings: seq<real>): (r: nat)
    ensures r <= |readings|
  {
    if readings == [] then 0
    else if NewTimeout(readings[0]) >= MaxTimeout then 1
    else 1 + Checks(readings[1..])
  }

  /** Every request lies strictly above the default and at most at the maximum. */
  lemma {:induction false} RequestsInRange(readings: seq<real>)
    ensures forall i :: 0 <= i < |Requests(readings)| ==> DefaultTimeout < Requests(readings)[i] <= MaxTimeout
  {
    if readings != [] {
      RequestsInRange(readings[1..]);
    }
  }

  /** Only the last request can be the maximum. */
  lemma {:induction false} MaxRequestIsLast(readings: seq<real>)
    ensures forall i :: 0 <= i < |Requests(readings)| - 1 ==> Requests(readings)[i] < MaxTimeout
  {
    if readings != [] {
      MaxRequestIsLast(readings[1..]);
    }
  }

  /** Monitoring stops right after the first check that reaches the maximum. */
  lemma {:induction false} StopsAtFirstMaximum(readings: seq<real>, i: nat)
    requires i < |readings| && NewTimeout(readings[i]) >= MaxTimeout
    requires forall j :: 0 <= j < i ==> NewTimeout(readings[j]) < MaxTimeout
    ensures Checks(readings) == i + 1
    ensures Requests(readings) == Requests(readings[..i]) + [MaxTimeout]
  {
    if i == 0 {
      assert readings[..0] == [];
    } else {
      StopsAtFirstMaximum(readings[1..], i - 1);
      assert readings[1..][..i - 1] == readings[..i][1..];
    }
  }

  /** Elapsed times that never go down give requests that never go down. */
  lemma {:induction false} RequestsNondecreasing(readings: seq<real>)
    requires forall i, j :: 0 <= i < j < |readings| ==> readings[i] <= readings[j]
    ensures forall i, j :: 0 <= i < j < |Requests(readings)| ==> Requests(readings)[i] <= Requests(readings)[j]
  {
    if readings != [] {
      var rest := readings[1..];
      RequestsNondecreasing(rest);
      RequestsAtLeast(rest, NewTimeout(readings[0]), readings[0]);
    }
  }

  /** Later readings, at least `floor`, request at least `NewTimeout(floor)`. */
  lemma {:induction false} RequestsAtLeast(readings: seq<real>, t: int, floor: real)
    requires t == NewTimeout(floor)
    requires forall i :: 0 <= i < |readings| ==> floor <= readings[i]
    ensures forall i :: 0 <= i < |Requests(readings)| ==> t <= Requests(readings)[i]
  {
    if readings != [] {
      RequestsAtLeast(readings[1..], t, floor);
      assert Trunc(floor + TimeoutBuffer as real) <= Trunc(readings[0] + TimeoutBuffer as real) by {
        TruncIsMonotone(floor + TimeoutBuffer as real, readings[0] + TimeoutBuffer as real);
      }
    }
  }

  lemma TruncIsMonotone(x: real, y: real)
    requires x <= y
    ensures Trunc(x) <= Trunc(y)
  {
    if x < 0.0 && y >= 0.0 {
      assert Trunc(x) <= 0;
    }
  }

  /** `_monitor_and_extend_timeout` over the elapsed times its checks read
      (the sleeps between checks and the monitor thread are not modelled);
      `stopped` tells whether it ended by itself rather than by running out
      of readings. */
  method MonitorAndExtendTimeout(readings: seq<real>) returns (requests: seq<int>, checks: nat, stopped: bool)
    ensures requests == Requests(readings) && checks == Checks(readings)
    ensures stopped <==> exists i :: 0 <= i < |readings| && NewTimeout(readings[i]) >= MaxTimeout
  {
    requests := [];
    checks := 0;
    stopped := false;
    var i := 0;
    while i < |readings|
      invariant 0 <= i <= |readings| && checks == i
      invariant forall j :: 0 <= j < i ==> NewTimeout(readings[j]) < MaxTimeout
      invariant requests + Requests(readings[i..]) == Requests(readings)
      invariant checks + Checks(readings[i..]) == Checks(readings)
      decreases |readings| - i
    {
      var rest := readings[i..];
      assert rest[0] == readings[i] && rest[1..] == readings[i + 1..];
      var newTimeout := NewTimeout(readings[i]);
      assert Checks(rest) == if newTimeout >= MaxTimeout then 1 else 1 + Checks(readings[i + 1..]);
      assert Requests(rest) == if newTimeout <= DefaultTimeout then Requests(readings[i + 1..])
                               else if newTimeout >= MaxTimeout then [newTimeout]
                               else [newTimeout] + Requests(readings[i + 1..]);
      checks := checks + 1;
      if newTimeout <= DefaultTimeout {
        i := i + 1;
        continue;
      }
      requests := requests + [newTimeout];
      if newTimeout >= MaxTimeout {
        stopped := true;
        return;
      }
      i := i + 1;
    }
  }
}
