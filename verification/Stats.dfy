/** The traffic rates a node reports: byte counters and a clock, differences of consecutive shots. */
module Stats {
  import opened Common

  type uint64 = x: int | 0 <= x < UINT64
  type int64 = x: int | -0x8000_0000_0000_0000 <= x < 0x8000_0000_0000_0000

  datatype NetShot = NetShot(bytesRecv: uint64, bytesSend: uint64)

  /** Whole seconds between two clock readings in milliseconds, at least one if less than one passed. */
  function Seconds(before: int64, now: int64): (dt: int)
    ensures dt % UINT64 != 0
    ensures before <= now ==> dt >= 1
  {
    var diff := Truncated(now - before, 1000);
    if diff == 0 then 1 else diff
  }

  /** An unsigned number divided by a signed one, which is converted. */
  function PerSecond(bytes: nat, dt: int): nat
    requires dt % UINT64 != 0
  {
    bytes / ToUint64(dt)
  }

  /** The difference of two counters wraps around. */
  function Rate(before: uint64, now: uint64, dt: int): nat
    requires dt % UINT64 != 0
  {
    PerSecond(ToUint64(now - before), dt)
  }

  /** A clock in milliseconds that went on: the seconds that are full, or one if none is. */
  lemma WholeSeconds(before: int64, now: int64)
    requires before <= now
    ensures now - before < 1000 ==> Seconds(before, now) == 1
    ensures now - before >= 1000 ==>
              1000 * Seconds(before, now) <= now - before < 1000 * (Seconds(before, now) + 1)
  {
  }

  /** A clock that went back by less than a second counts as one second on; one that went back further makes
      the divisor wrap around, and any counter difference below 2^63 is reported as no traffic. */
  lemma ClockBack(before: int64, now: int64, a: uint64, b: uint64)
    requires now < before && before - now < 0x8000_0000_0000_0000
    ensures before - now < 1000 ==> Seconds(before, now) == 1
    ensures before - now >= 1000 && ToUint64(b - a) < 0x8000_0000_0000_0000 ==> Rate(a, b, Seconds(before, now)) == 0
  {
    if before - now >= 1000 {
      var s := (before - now) / 1000;
      assert Seconds(before, now) == -s && 1 <= s < 0x8000_0000_0000_0000;
      assert ToUint64(-s) == UINT64 - s;
    }
  }

  class NodeStats {
    var prevNshot: NetShot
    var timestamp: int64

    constructor (nshot: NetShot, now: int64)
      ensures prevNshot == nshot && timestamp == now
    {
      prevNshot, timestamp := nshot, now;
    }

    /** Both rates cover exactly the time since the previous shot, which this shot replaces. */
    method MakeServiceStats(nextNshot: NetShot, currentTime: int64) returns (recv: nat, send: nat)
      modifies this
      ensures prevNshot == nextNshot && timestamp == currentTime
      ensures recv == Rate(old(prevNshot.bytesRecv), nextNshot.bytesRecv, Seconds(old(timestamp), currentTime))
      ensures send == Rate(old(prevNshot.bytesSend), nextNshot.bytesSend, Seconds(old(timestamp), currentTime))
    {
      var bytesRecv := ToUint64(nextNshot.bytesRecv - prevNshot.bytesRecv);
      var bytesSend := ToUint64(nextNshot.bytesSend - prevNshot.bytesSend);
      prevNshot := nextNshot;
      var tsDiff := Truncated(currentTime - timestamp, 1000);
      if tsDiff == 0 {
        tsDiff := 1;
      }
      assert tsDiff == Seconds(timestamp, currentTime);
      timestamp := currentTime;
      recv, send := PerSecond(bytesRecv, tsDiff), PerSecond(bytesSend, tsDiff);
    }
  }

  // ---- runs of reports -----------------------------------------------------------------------

  /** One counter and the clock at the shots of a run, the first shot being the one before the run. */
  datatype Reading = Reading(bytes: uint64, time: int64)

  predicate Ordered(shots: seq<Reading>) {
    forall i :: 0 < i < |shots| ==> shots[i - 1].bytes <= shots[i].bytes && shots[i - 1].time <= shots[i].time
  }

  /** Sum of (rate + extra) * dt over the reports between consecutive shots. */
  function Reported(shots: seq<Reading>, extra: nat): int {
    if |shots| <= 1 then 0
    else
      var a, b := shots[|shots| - 2], shots[|shots| - 1];
      var dt := Seconds(a.time, b.time);
      Reported(shots[..|shots| - 1], extra) + (Rate(a.bytes, b.bytes, dt) + extra) * dt
  }

  lemma RateBounds(a: uint64, b: uint64, dt: int)
    requires a <= b && 1 <= dt < UINT64
    ensures Rate(a, b, dt) * dt <= b - a < (Rate(a, b, dt) + 1) * dt
  {
  }

  lemma SecondsSmall(before: int64, now: int64)
    requires before <= now
    ensures 1 <= Seconds(before, now) < UINT64
  {
  }

  /** Over any run of reports with a clock and a counter that do not go back, the reported rates account
      for the bytes of the whole run up to less than one byte per second reported. */
  lemma {:induction false} RatesTelescope(shots: seq<Reading>)
    requires |shots| >= 2 && Ordered(shots)
    ensures Reported(shots, 0) <= shots[|shots| - 1].bytes - shots[0].bytes < Reported(shots, 1)
  {
    var n := |shots| - 1;
    var a, b := shots[n - 1], shots[n];
    SecondsSmall(a.time, b.time);
    RateBounds(a.bytes, b.bytes, Seconds(a.time, b.time));
    if n > 1 {
      RatesTelescope(shots[..n]);
    }
  }
}
