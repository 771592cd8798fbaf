/**
 * WriteLog: serialise a record once, print it through the host's logger when
 * stdout logging is on, and push it to every non-nil Kafka producer. A failed
 * push is logged and goes no further.
 */
module Emission {
  import opened Wrappers
  import opened Effects

  /** The stdout line for a record: "[PLUGIN: klog-plugin] REQUEST: {...}". */
  function StdoutLine(prefix: string, entry: string): string {
    Tagged(prefix + ": " + entry)
  }

  /** The line logged before each push. */
  const PushNotice: string := "push log to kafka"

  /** What pushing `entry` through one entry of the producer list does. */
  function PushOne(pusher: Option<Pusher>, entry: string, publish: (Pusher, string) -> Option<string>): seq<Effect> {
    match pusher
    case None => []
    case Some(p) =>
      [Info(PushNotice), Push(p, entry)] +
      (match publish(p, entry) case None => [] case Some(err) => [Error(err)])
  }

  /** The push loop over the whole producer list. */
  function PushTrace(pushers: seq<Option<Pusher>>, entry: string, publish: (Pusher, string) -> Option<string>): seq<Effect> {
    if pushers == [] then []
    else PushTrace(pushers[..|pushers| - 1], entry, publish) + PushOne(pushers[|pushers| - 1], entry, publish)
  }

  /**
   * Everything one WriteLog call does. `serialize` stands for json.Marshal and
   * `publish` for the broker's answer to a push (None: accepted, Some: the error).
   */
  function WriteLogTrace(
    prefix: string, record: Record, stdout: bool, pushers: seq<Option<Pusher>>,
    serialize: Record -> string, publish: (Pusher, string) -> Option<string>): seq<Effect>
  {
    var entry := serialize(record);
    [Emit(prefix, record)]
    + (if stdout then [Info(StdoutLine(prefix, entry))] else [])
    + PushTrace(pushers, entry, publish)
  }

  /** WriteLog. */
  method WriteLog(
    prefix: string, record: Record, stdout: bool, pushers: seq<Option<Pusher>>,
    serialize: Record -> string, publish: (Pusher, string) -> Option<string>)
    returns (effects: seq<Effect>)
    ensures effects == WriteLogTrace(prefix, record, stdout, pushers, serialize, publish)
  {
    var entry := serialize(record);
    effects := [Emit(prefix, record)];
    if stdout {
      effects := effects + [Info(StdoutLine(prefix, entry))];
    }
    var pushes: seq<Effect> := [];
    for i := 0 to |pushers|
      invariant pushes == PushTrace(pushers[..i], entry, publish)
    {
      assert pushers[..i + 1][..i] == pushers[..i];
      var step: seq<Effect> := [];
      if pushers[i].Some? {
        var p := pushers[i].value;
        step := [Info(PushNotice), Push(p, entry)];
        var err := publish(p, entry);
        if err.Some? {
          step := step + [Error(err.value)];
        }
      }
      assert step == PushOne(pushers[i], entry, publish);
      pushes := pushes + step;
    }
    assert pushers[..|pushers|] == pushers;
    effects := effects + pushes;
  }

  /** The producers that are not nil, in order. */
  function Live(pushers: seq<Option<Pusher>>): seq<Pusher> {
    if pushers == [] then []
    else Live(pushers[..|pushers| - 1]) + (if pushers[|pushers| - 1].Some? then [pushers[|pushers| - 1].value] else [])
  }

  /** The producers a trace pushes to, in order. */
  function Pushed(t: seq<Effect>): seq<Pusher> {
    if t == [] then []
    else Pushed(t[..|t| - 1]) + (if t[|t| - 1].Push? then [t[|t| - 1].pusher] else [])
  }

  lemma {:induction false} PushedAppend(a: seq<Effect>, b: seq<Effect>)
    ensures Pushed(a + b) == Pushed(a) + Pushed(b)
    decreases |b|
  {
    if b != [] {
      var b' := b[..|b| - 1];
      assert (a + b)[..|a + b| - 1] == a + b';
      PushedAppend(a, b');
    } else {
      assert a + b == a;
    }
  }

  /**
   * The push loop pushes the one serialised entry once to every non-nil
   * producer, in list order, and skips nil entries; besides the pushes it only
   * logs the push notice and the errors of failed pushes.
   */
  lemma {:induction false} PushTraceShape(pushers: seq<Option<Pusher>>, entry: string, publish: (Pusher, string) -> Option<string>)
    ensures Pushed(PushTrace(pushers, entry, publish)) == Live(pushers)
    ensures forall e | e in PushTrace(pushers, entry, publish) ::
      (e.Push? && e.entry == entry) || e == Info(PushNotice) || e.Error?
  {
    if pushers != [] {
      var front := pushers[..|pushers| - 1];
      var one := PushOne(pushers[|pushers| - 1], entry, publish);
      PushTraceShape(front, entry, publish);
      PushedAppend(PushTrace(front, entry, publish), one);
      if pushers[|pushers| - 1].Some? {
        var p := pushers[|pushers| - 1].value;
        var tail := match publish(p, entry) case None => [] case Some(err) => [Error(err)];
        assert one == [Info(PushNotice), Push(p, entry)] + tail;
        PushedAppend([Info(PushNotice), Push(p, entry)], tail);
        PushedAppend([Info(PushNotice)], [Push(p, entry)]);
        assert Pushed(tail) == [];
      }
    }
  }

  /** Some non-nil producer of the list answers a push of `entry` with the error `msg`. */
  predicate FailsWith(pushers: seq<Option<Pusher>>, entry: string, publish: (Pusher, string) -> Option<string>, msg: string) {
    exists i | 0 <= i < |pushers| :: pushers[i].Some? && publish(pushers[i].value, entry) == Some(msg)
  }

  /** The push loop logs an error exactly for the errors its producers answer with. */
  lemma {:induction false} PushErrors(pushers: seq<Option<Pusher>>, entry: string, publish: (Pusher, string) -> Option<string>)
    ensures forall msg :: Error(msg) in PushTrace(pushers, entry, publish) <==> FailsWith(pushers, entry, publish, msg)
  {
    if pushers != [] {
      var front := pushers[..|pushers| - 1];
      var last := pushers[|pushers| - 1];
      PushErrors(front, entry, publish);
      forall msg
        ensures Error(msg) in PushTrace(pushers, entry, publish) <==> FailsWith(pushers, entry, publish, msg)
      {
        assert Error(msg) in PushOne(last, entry, publish) <==> last.Some? && publish(last.value, entry) == Some(msg);
        if FailsWith(front, entry, publish, msg) {
          var i :| 0 <= i < |front| && front[i].Some? && publish(front[i].value, entry) == Some(msg);
          assert pushers[i] == front[i];
        }
        if FailsWith(pushers, entry, publish, msg) {
          var i :| 0 <= i < |pushers| && pushers[i].Some? && publish(pushers[i].value, entry) == Some(msg);
          if i < |front| {
            assert front[i] == pushers[i];
          }
        }
      }
    }
  }

  /**
   * WriteLog logs the error of every failed push, and every error it logs is
   * the answer of one of its producers to the serialised record.
   */
  lemma WriteLogErrors(
    prefix: string, record: Record, stdout: bool, pushers: seq<Option<Pusher>>,
    serialize: Record -> string, publish: (Pusher, string) -> Option<string>)
    ensures forall msg ::
      Error(msg) in WriteLogTrace(prefix, record, stdout, pushers, serialize, publish) <==>
      FailsWith(pushers, serialize(record), publish, msg)
  {
    PushErrors(pushers, serialize(record), publish);
  }

  /** One WriteLog call is one Emit for its prefix and nothing else of the handler's skeleton. */
  lemma WriteLogSteps(
    prefix: string, record: Record, stdout: bool, pushers: seq<Option<Pusher>>,
    serialize: Record -> string, publish: (Pusher, string) -> Option<string>)
    ensures Steps(WriteLogTrace(prefix, record, stdout, pushers, serialize, publish)) == [EmitStep(prefix)]
  {
    var entry := serialize(record);
    var head := [Emit(prefix, record)] + (if stdout then [Info(StdoutLine(prefix, entry))] else []);
    var pushes := PushTrace(pushers, entry, publish);
    PushTraceShape(pushers, entry, publish);
    StepsAppend(head, pushes);
    forall i | 0 <= i < |pushes| ensures !pushes[i].Emit? && !pushes[i].Forward? {
      assert pushes[i] in pushes;
    }
    StepsOfQuiet(pushes);
    if stdout {
      StepsAppend([Emit(prefix, record)], [Info(StdoutLine(prefix, entry))]);
    }
  }

  /** WriteLog prints the record's line exactly when stdout logging is on. */
  lemma WriteLogStdout(
    prefix: string, record: Record, stdout: bool, pushers: seq<Option<Pusher>>,
    serialize: Record -> string, publish: (Pusher, string) -> Option<string>)
    ensures Info(StdoutLine(prefix, serialize(record))) in WriteLogTrace(prefix, record, stdout, pushers, serialize, publish)
      <==> stdout
  {
    var entry := serialize(record);
    PushTraceShape(pushers, entry, publish);
    assert StdoutLine(prefix, entry)[0] == '[' != PushNotice[0];
    assert Info(StdoutLine(prefix, entry)) !in PushTrace(pushers, entry, publish);
  }

  /**
   * WriteLog pushes the serialised record once to every non-nil producer, in
   * order, and to nothing else. A failed push is logged; WriteLog returns nothing.
   */
  lemma WriteLogPushes(
    prefix: string, record: Record, stdout: bool, pushers: seq<Option<Pusher>>,
    serialize: Record -> string, publish: (Pusher, string) -> Option<string>)
    ensures Pushed(WriteLogTrace(prefix, record, stdout, pushers, serialize, publish)) == Live(pushers)
    ensures forall e | e in WriteLogTrace(prefix, record, stdout, pushers, serialize, publish) && e.Push? ::
      e.entry == serialize(record)
  {
    var entry := serialize(record);
    var head := [Emit(prefix, record)] + (if stdout then [Info(StdoutLine(prefix, entry))] else []);
    var pushes := PushTrace(pushers, entry, publish);
    PushTraceShape(pushers, entry, publish);
    PushedAppend(head, pushes);
    if stdout {
      PushedAppend([Emit(prefix, record)], [Info(StdoutLine(prefix, entry))]);
    }
  }

  /** WriteLog only emits, logs and pushes: it never dials and never forwards. */
  lemma WriteLogKinds(
    prefix: string, record: Record, stdout: bool, pushers: seq<Option<Pusher>>,
    serialize: Record -> string, publish: (Pusher, string) -> Option<string>)
    ensures forall e | e in WriteLogTrace(prefix, record, stdout, pushers, serialize, publish) ::
      e.Emit? || e.Info? || e.Push? || e.Error?
  {
    PushTraceShape(pushers, serialize(record), publish);
  }
}
