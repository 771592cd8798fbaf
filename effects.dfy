/**
 * What the middleware does that can be observed from outside: lines written
 * through the host's logger, messages pushed to Kafka, dials, WriteLog calls
 * and the hand-off to the wrapped handler. The model appends these to a log
 * instead of performing them.
 */
module Effects {
  import opened Http

  /** The name the plugin registers under and uses in every log line. */
  const PluginName: string := "klog-plugin"

  /** A log message with the plugin's "[PLUGIN: klog-plugin] " prefix. */
  function Tagged(msg: string): string {
    "[PLUGIN: " + PluginName + "] " + msg
  }

  /** A value stored in a log record (the source's map[string]interface{}). */
  datatype Field =
    | Text(s: string)
    | Blob(bytes: seq<byte>)      // a Go string made from a byte slice
    | Headers(h: Header)
    | Number(n: int)

  /** One log record: field name to value. */
  type Record = map<string, Field>

  /** A Kafka producer: the leader connection it dialled and its topic. */
  datatype Pusher = Pusher(broker: string, topic: string)

  datatype Effect =
    | Emit(prefix: string, record: Record)   // one WriteLog call, before serialisation
    | Info(msg: string)
    | Warning(msg: string)
    | Error(msg: string)
    | Push(pusher: Pusher, entry: string)    // Pusher.Push of a serialised record
    | Dial(brokers: seq<string>, topic: string)
    | Forward(path: string, body: seq<byte>) // the wrapped handler runs, seeing this path and body

  /** The WriteLog calls and hand-offs of a trace, the skeleton of the handler's behaviour. */
  datatype Step = EmitStep(prefix: string) | ForwardStep(path: string, body: seq<byte>)

  function StepOf(e: Effect): seq<Step> {
    match e
    case Emit(prefix, _) => [EmitStep(prefix)]
    case Forward(path, body) => [ForwardStep(path, body)]
    case _ => []
  }

  function Steps(t: seq<Effect>): seq<Step> {
    if t == [] then [] else StepOf(t[0]) + Steps(t[1..])
  }

  lemma {:induction false} StepsAppend(a: seq<Effect>, b: seq<Effect>)
    ensures Steps(a + b) == Steps(a) + Steps(b)
  {
    if a == [] {
      assert a + b == b;
    } else {
      assert (a + b)[1..] == a[1..] + b;
      StepsAppend(a[1..], b);
    }
  }

  /** A trace with no WriteLog call and no hand-off has an empty skeleton. */
  lemma {:induction false} StepsOfQuiet(t: seq<Effect>)
    requires forall i | 0 <= i < |t| :: !t[i].Emit? && !t[i].Forward?
    ensures Steps(t) == []
  {
    if t != [] {
      StepsOfQuiet(t[1..]);
    }
  }
}
