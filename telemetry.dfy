/**
 * The three metrics of app/core/telemetry.py: the call counter labelled by
 * tool and status, the latency histogram labelled by tool (only its number
 * of observations, durations are not modelled), and the auth-failure counter.
 */
module Telemetry {

  datatype Status = Success | Error

  /** A labelled counter's value; a label set never incremented reads as 0. */
  function Count<K>(m: map<K, nat>, k: K): nat
  {
    if k in m then m[k] else 0
  }

  /** `.labels(...).inc()`: the one addressed counter goes up by one, the others stay. */
  function Bumped<K(!new)>(m: map<K, nat>, k: K): (r: map<K, nat>)
    ensures Count(r, k) == Count(m, k) + 1
    ensures forall j :: j != k ==> Count(r, j) == Count(m, j)
    ensures r.Keys == m.Keys + {k}
  {
    m[k := Count(m, k) + 1]
  }

  class Metrics {
    /** `mcp_tool_calls_total{tool_name, status}`. */
    var toolCalls: map<(string, Status), nat>
    /** Observation count of `mcp_tool_latency_seconds{tool_name}`. */
    var latencyObservations: map<string, nat>
    /** `mcp_auth_failures_total`. */
    var authFailures: nat

    constructor ()
      ensures toolCalls == map[] && latencyObservations == map[] && authFailures == 0
    {
      toolCalls := map[];
      latencyObservations := map[];
      authFailures := 0;
    }

    /** The value of `mcp_tool_calls_total{tool_name=tool, status=status}`. */
    function CallCount(tool: string, status: Status): nat
      reads this
    {
      Count(toolCalls, (tool, status))
    }

    /** The number of observations of `mcp_tool_latency_seconds{tool_name=tool}`. */
    function LatencyCount(tool: string): nat
      reads this
    {
      Count(latencyObservations, tool)
    }

    method IncToolCall(tool: string, status: Status)
      modifies this
      ensures toolCalls == Bumped(old(toolCalls), (tool, status))
      ensures latencyObservations == old(latencyObservations) && authFailures == old(authFailures)
    {
      toolCalls := Bumped(toolCalls, (tool, status));
    }

    method ObserveLatency(tool: string)
      modifies this
      ensures latencyObservations == Bumped(old(latencyObservations), tool)
      ensures toolCalls == old(toolCalls) && authFailures == old(authFailures)
    {
      latencyObservations := Bumped(latencyObservations, tool);
    }

    method IncAuthFailures()
      modifies this
      ensures authFailures == old(authFailures) + 1
      ensures toolCalls == old(toolCalls) && latencyObservations == old(latencyObservations)
    {
      authFailures := authFailures + 1;
    }
  }
}
