/** The host's three sinks, recorded as one ordered trace of calls. */
module Sinks {

  /** One call the action makes into the host. */
  datatype Event =
    | Info(line: string)                     // core.info
    | SetOutput(name: string, value: string) // core.setOutput
    | SetFailed(message: string)             // core.setFailed

  /** Which sink an event goes to. */
  datatype Sink = LogSink | OutputSink | FailureSink

  function SinkOf(e: Event): Sink {
    match e
    case Info(_) => LogSink
    case SetOutput(_, _) => OutputSink
    case SetFailed(_) => FailureSink
  }

  /** How many calls of trace `t` go to sink `k`. */
  function Count(t: seq<Event>, k: Sink): (n: nat)
    ensures n <= |t|
  {
    if t == [] then 0
    else (if SinkOf(t[0]) == k then 1 else 0) + Count(t[1..], k)
  }

  lemma {:induction false} CountAppend(a: seq<Event>, b: seq<Event>, k: Sink)
    ensures Count(a + b, k) == Count(a, k) + Count(b, k)
  {
    if a == [] {
      assert a + b == b;
    } else {
      assert (a + b)[1..] == a[1..] + b;
      CountAppend(a[1..], b, k);
    }
  }

  /** A sink gets no call exactly when no event of the trace goes to it. */
  lemma {:induction false} CountZero(t: seq<Event>, k: Sink)
    ensures Count(t, k) == 0 <==> forall i :: 0 <= i < |t| ==> SinkOf(t[i]) != k
  {
    if t != [] {
      CountZero(t[1..], k);
      if SinkOf(t[0]) != k {
        forall i | 0 < i < |t| ensures t[i] == t[1..][i - 1] {
        }
      }
    }
  }
}
