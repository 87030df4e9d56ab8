/** The vocabulary both consumer variants share: what can happen to a consume loop, and the metrics it keeps. */
module ConsumeEvents {
  import opened Broker

  datatype LoopEvent =
    | Signal                                   // SIGTERM: the shutdown goroutine cancels the context
    | Enter(callbacks: nat)                    // context not done: Poll, in which at most so many callbacks run
    | Stop                                     // context done: leave the loop
    | Assigned(ps: set<TopicPartition>) | Revoked
    | PollNothing | PollMessage(msg: Ref) | PollError(allBrokersDown: bool)
    | Begin                                    // processing delay over, first attempt
    | AttemptOk | AttemptFail(err: string)
    | Elapse | Interrupt                       // backoff over, or cut short
    | Observe | Count | Publish(accepted: bool) | CommitOffset(applied: bool)
    | CloseConsumer | ClosePublisher
    | Crash

  /** How `WithRetry` ended. */
  datatype Result = Ok | Failed(err: string, attempts: nat)

  /** The per-topic metrics. */
  datatype Metrics = Metrics(success: map<string, nat>, dlq: map<string, nat>, observed: map<string, nat>,
                             dlqTotal: map<string, nat>)

  const NO_METRICS := Metrics(map[], map[], map[], map[])

  function Get(counter: map<string, nat>, topic: string): nat {
    if topic in counter then counter[topic] else 0
  }

  function Inc(counter: map<string, nat>, topic: string): map<string, nat> {
    counter[topic := Get(counter, topic) + 1]
  }

  function CountResult(m: Metrics, topic: string, r: Result): Metrics {
    if r.Ok? then m.(success := Inc(m.success, topic))
    else m.(dlq := Inc(m.dlq, topic), dlqTotal := Inc(m.dlqTotal, topic))
  }

  /** The messages a loop took, in order. */
  function Fetched(actions: seq<Action>): seq<Ref> {
    if actions == [] then []
    else (if actions[0].Fetch? then [actions[0].msg] else []) + Fetched(actions[1..])
  }

  lemma {:induction false} FetchedConcat(a: seq<Action>, b: seq<Action>)
    ensures Fetched(a + b) == Fetched(a) + Fetched(b)
  {
    if a == [] {
      assert a + b == b;
    } else {
      FetchedConcat(a[1..], b);
      assert (a + b)[1..] == a[1..] + b;
    }
  }

  /** What happens in a group of loops: something outside them, a new process, or a step of one. */
  datatype GroupEvent = Elsewhere(o: Outside) | Start(c: nat) | Loop(c: nat, e: LoopEvent)
}
