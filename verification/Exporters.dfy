/**
  The exporter at the pipeline's edge: it guards what it is given and delivers it or raises.
 */
module Exporters {
  import opened Wrappers
  import opened Governance
  import opened Telemetry

  method Guarded(points: seq<Point>) returns (ok: bool)
    ensures ok <==> Accepted(GUARD, points)
  {
    var violation := AssertAllowed(points);
    if violation.Some? {
      ghost var i :| 0 <= i < |points| && Violates(points[i]) == violation;
      assert !GUARD(points[i]) && points[i] in points;
    }
    ok := violation.None?;
  }

  class Backend {
    const hasHeartbeat: bool
    // Everything delivered by flushes, and by heartbeats.
    var metrics: seq<Point>
    var beats: seq<Point>

    constructor (hasHeartbeat: bool)
      ensures this.hasHeartbeat == hasHeartbeat && metrics == [] && beats == []
    {
      this.hasHeartbeat := hasHeartbeat;
      metrics, beats := [], [];
    }

    /** A flush delivers all of its points or, if one of them violates the schema or the delivery
        fails, none.  It can also raise after delivering them. */
    method Export(points: seq<Point>, fault: Fault) returns (ok: bool)
      modifies this`metrics
      ensures ok <==> Accepted(GUARD, points) && fault.Works?
      ensures metrics == old(metrics) + if Accepted(GUARD, points) && !fault.Fails? then points else []
    {
      ok := Guarded(points);
      if ok && !fault.Fails? {
        metrics := metrics + points;
      }
      ok := ok && fault.Works?;
    }

    method Heartbeat(points: seq<Point>, fault: Fault) returns (ok: bool)
      modifies this`beats
      ensures ok <==> Accepted(GUARD, points) && fault.Works?
      ensures beats == old(beats) + if Accepted(GUARD, points) && !fault.Fails? then points else []
    {
      ok := Guarded(points);
      if ok && !fault.Fails? {
        beats := beats + points;
      }
      ok := ok && fault.Works?;
    }
  }
}
