/**
 * The plugin's configuration and its extraction from the untyped map the
 * host hands over (configGetter, defaultConfigGetter in main.go). Every
 * mistyped or missing field falls back to a default; nothing here fails.
 */
module PluginConfig {
  import opened Wrappers
  import opened Effects

  /** A value of the untyped configuration tree (an interface{} in the source). */
  datatype Value =
    | VBool(b: bool)
    | VInt(i: int)
    | VString(s: string)
    | VList(items: seq<Value>)
    | VMap(fields: map<string, Value>)
    | VOther

  datatype KafkaConfig = KafkaConfig(enabled: bool, brokers: seq<string>, topic: string, partition: int)

  datatype Config = Config(
    skipPaths: seq<string>,
    enabled: bool,
    logHeaderKeys: seq<string>,
    stdout: bool,
    kafka: KafkaConfig)

  /** defaultConfigGetter: logging on, to stdout, nothing skipped, Kafka off. */
  function DefaultConfig(): Config {
    Config([], true, [], true, KafkaConfig(false, [], "", 0))
  }

  /** The map under `key`; the empty map (Go's nil map) when it is absent or not a map. */
  function MapAt(m: map<string, Value>, key: string): map<string, Value> {
    if key in m && m[key].VMap? then m[key].fields else map[]
  }

  /** Whether `m[key].(map[string]interface{})` succeeds. */
  predicate HasMap(m: map<string, Value>, key: string) {
    key in m && m[key].VMap?
  }

  /** `m[key].(bool)`: the value and whether the assertion succeeded. */
  function BoolAt(m: map<string, Value>, key: string): Option<bool> {
    if key in m && m[key].VBool? then Some(m[key].b) else None
  }

  function IntAt(m: map<string, Value>, key: string): Option<int> {
    if key in m && m[key].VInt? then Some(m[key].i) else None
  }

  function StringAt(m: map<string, Value>, key: string): Option<string> {
    if key in m && m[key].VString? then Some(m[key].s) else None
  }

  function ListAt(m: map<string, Value>, key: string): Option<seq<Value>> {
    if key in m && m[key].VList? then Some(m[key].items) else None
  }

  /** The string elements of `vs`, in their order; every other element is dropped. */
  function StringsOf(vs: seq<Value>): (r: seq<string>)
    ensures |r| <= |vs|
    ensures forall s :: s in r <==> VString(s) in vs
  {
    if vs == [] then []
    else
      var last := vs[|vs| - 1];
      assert vs == vs[..|vs| - 1] + [last];
      StringsOf(vs[..|vs| - 1]) + (if last.VString? then [last.s] else [])
  }

  /** Filtering a concatenation filters each part: the order of the strings is kept. */
  lemma {:induction false} StringsOfAppend(a: seq<Value>, b: seq<Value>)
    ensures StringsOf(a + b) == StringsOf(a) + StringsOf(b)
    decreases |b|
  {
    if b == [] {
      assert a + b == a;
    } else {
      var b' := b[..|b| - 1];
      assert (a + b)[..|a + b| - 1] == a + b';
      StringsOfAppend(a, b');
    }
  }

  /** A list holding only strings loses nothing. */
  lemma {:induction false} StringsOfAllStrings(vs: seq<Value>)
    requires forall i | 0 <= i < |vs| :: vs[i].VString?
    ensures |StringsOf(vs)| == |vs|
    ensures forall i | 0 <= i < |vs| :: StringsOf(vs)[i] == vs[i].s
  {
    if vs != [] {
      StringsOfAllStrings(vs[..|vs| - 1]);
    }
  }

  const EnabledWrong: string := Tagged("config for [enabled] wrong!")
  const SkipPathsWrong: string := Tagged("config for [skip_paths] not input or wrong!")
  const HeaderKeysWrong: string := Tagged("config for [log_header_keys] not input or wrong!")
  const KafkaMissing: string := Tagged("config for [kafka] is not config!")

  /** The configuration configGetter derives from the host's map. */
  function ExtractConfig(extra: map<string, Value>): (c: Config)
    ensures c.stdout
    ensures c.enabled <==> BoolAt(MapAt(extra, PluginName), "enabled") == Some(true)
    ensures forall p :: p in c.skipPaths <==>
      ListAt(MapAt(extra, PluginName), "skip_paths").Some? &&
      VString(p) in ListAt(MapAt(extra, PluginName), "skip_paths").value
    ensures forall k :: k in c.logHeaderKeys <==>
      ListAt(MapAt(extra, PluginName), "log_header_keys").Some? &&
      VString(k) in ListAt(MapAt(extra, PluginName), "log_header_keys").value
    ensures c.kafka == ExtractKafka(MapAt(MapAt(extra, PluginName), "kafka"))
    ensures !HasMap(MapAt(extra, PluginName), "kafka") ==> !c.kafka.enabled && c.kafka.brokers == []
  {
    var section := MapAt(extra, PluginName);
    var kafka := MapAt(section, "kafka");
    Config(
      skipPaths := StringsOf(ListAt(section, "skip_paths").GetOr([])),
      enabled := BoolAt(section, "enabled").GetOr(false),
      logHeaderKeys := StringsOf(ListAt(section, "log_header_keys").GetOr([])),
      stdout := true,
      kafka := ExtractKafka(kafka))
  }

  /** The Kafka sub-configuration: each field only when it has the right type. */
  function ExtractKafka(raw: map<string, Value>): (k: KafkaConfig)
    ensures k.enabled <==> BoolAt(raw, "enabled") == Some(true)
    ensures forall b :: b in k.brokers <==>
      ListAt(raw, "broker_urls").Some? && VString(b) in ListAt(raw, "broker_urls").value
    ensures k.topic == if StringAt(raw, "topic").Some? then StringAt(raw, "topic").value else ""
    ensures k.partition == if IntAt(raw, "partition").Some? then IntAt(raw, "partition").value else 0
    ensures raw == map[] ==> k == DefaultConfig().kafka
  {
    KafkaConfig(
      enabled := BoolAt(raw, "enabled").GetOr(false),
      brokers := StringsOf(ListAt(raw, "broker_urls").GetOr([])),
      topic := StringAt(raw, "topic").GetOr(""),
      partition := IntAt(raw, "partition").GetOr(0))
  }

  /**
   * Without the plugin's entry every field keeps its default except `enabled`,
   * which comes out false, not true.
   */
  lemma MissingSectionDisables(extra: map<string, Value>)
    requires PluginName !in extra
    ensures ExtractConfig(extra) == DefaultConfig().(enabled := false)
    ensures DefaultConfig().enabled
  {
  }

  /** The loop of configGetter that appends the string elements of a raw list. */
  method AppendStrings(acc: seq<string>, raw: seq<Value>) returns (out: seq<string>)
    ensures out == acc + StringsOf(raw)
  {
    out := acc;
    for i := 0 to |raw|
      invariant out == acc + StringsOf(raw[..i])
    {
      assert raw[..i + 1] == raw[..i] + [raw[i]];
      StringsOfAppend(raw[..i], [raw[i]]);
      if raw[i].VString? {
        out := out + [raw[i].s];
      }
    }
    assert raw[..|raw|] == raw;
  }

  /** The one line `e` when `cond` holds, nothing otherwise. */
  function LogIf(cond: bool, e: Effect): seq<Effect> {
    if cond then [e] else []
  }

  /** The lines configGetter logs about the plugin's section, one per missing or mistyped field. */
  function Diagnostics(section: map<string, Value>): (d: seq<Effect>)
    ensures Warning(EnabledWrong) in d <==> BoolAt(section, "enabled").None?
    ensures Warning(SkipPathsWrong) in d <==> ListAt(section, "skip_paths").None?
    ensures Warning(HeaderKeysWrong) in d <==> ListAt(section, "log_header_keys").None?
    ensures Info(KafkaMissing) in d <==> !HasMap(section, "kafka")
    ensures |d| <= 4
    ensures forall e | e in d ::
      e in [Warning(EnabledWrong), Warning(SkipPathsWrong), Warning(HeaderKeysWrong), Info(KafkaMissing)]
  {
    assert |EnabledWrong| < |SkipPathsWrong| < |HeaderKeysWrong|;
    LogIf(BoolAt(section, "enabled").None?, Warning(EnabledWrong))
    + LogIf(ListAt(section, "skip_paths").None?, Warning(SkipPathsWrong))
    + LogIf(ListAt(section, "log_header_keys").None?, Warning(HeaderKeysWrong))
    + LogIf(!HasMap(section, "kafka"), Info(KafkaMissing))
  }

  /** The Kafka part of configGetter: start from the defaults, take each well-typed field. */
  method KafkaGetter(raw: map<string, Value>) returns (kconfig: KafkaConfig)
    ensures kconfig == ExtractKafka(raw)
  {
    kconfig := KafkaConfig(false, [], "", 0);
    var enabled := BoolAt(raw, "enabled");
    if enabled.Some? {
      kconfig := kconfig.(enabled := enabled.value);
    }
    var urls := ListAt(raw, "broker_urls");
    if urls.Some? {
      var brokers := AppendStrings(kconfig.brokers, urls.value);
      kconfig := kconfig.(brokers := brokers);
    }
    var topic := StringAt(raw, "topic");
    if topic.Some? {
      kconfig := kconfig.(topic := topic.value);
    }
    var partition := IntAt(raw, "partition");
    if partition.Some? {
      kconfig := kconfig.(partition := partition.value);
    }
  }

  /**
   * configGetter: the configuration, and the diagnostics it logs for each
   * missing or mistyped top-level field.
   */
  method ConfigGetter(extra: map<string, Value>) returns (cfg: Config, diagnostics: seq<Effect>)
    ensures cfg == ExtractConfig(extra)
    ensures diagnostics == Diagnostics(MapAt(extra, PluginName))
  {
    var section := MapAt(extra, PluginName);
    cfg := DefaultConfig();

    var enabled := BoolAt(section, "enabled");
    diagnostics := LogIf(enabled.None?, Warning(EnabledWrong));
    cfg := cfg.(enabled := enabled.GetOr(false));

    var skipPaths := ListAt(section, "skip_paths");
    diagnostics := diagnostics + LogIf(skipPaths.None?, Warning(SkipPathsWrong));
    var paths := AppendStrings(cfg.skipPaths, skipPaths.GetOr([]));
    cfg := cfg.(skipPaths := paths);

    var headerKeys := ListAt(section, "log_header_keys");
    diagnostics := diagnostics + LogIf(headerKeys.None?, Warning(HeaderKeysWrong));
    var keys := AppendStrings(cfg.logHeaderKeys, headerKeys.GetOr([]));
    cfg := cfg.(logHeaderKeys := keys);

    diagnostics := diagnostics + LogIf(!HasMap(section, "kafka"), Info(KafkaMissing));
    var kconfig := KafkaGetter(MapAt(section, "kafka"));
    cfg := cfg.(kafka := kconfig);
    assert cfg == ExtractConfig(extra);
  }
}
