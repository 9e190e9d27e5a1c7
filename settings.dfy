/**
 * Configuration loading (src/nats_consumer/settings.py): the user's
 * settings are deep-merged over the defaults, `nats_servers` must be a
 * list, and the connection arguments keep only the truthy options.
 * The Django settings object is a parameter: a map from setting name to
 * value.
 */
module Settings {
  import opened Wrappers

  /** A Python configuration value. */
  datatype Value =
    | NoneValue
    | Bool(b: bool)
    | Int(i: int)
    | Str(s: string)
    | List(items: seq<Value>)
    | Dict(entries: map<string, Value>)

  /** Python truthiness: `None`, `False`, zero and empty containers are false. */
  predicate Truthy(v: Value): (t: bool)
    ensures !t <==> v == NoneValue || v == Bool(false) || v == Int(0) || v == Str("") || v == List([]) || v == Dict(map[])
  {
    match v
    case NoneValue => false
    case Bool(b) => b
    case Int(i) => i != 0
    case Str(s) => s != ""
    case List(items) => items != []
    case Dict(entries) => entries != map[]
  }

  /** Whether both sides hold a dict under `k`, the one case `merge_dicts` recurses on. */
  predicate BothDicts(d1: map<string, Value>, d2: map<string, Value>, k: string)
  {
    k in d1 && k in d2 && d1[k].Dict? && d2[k].Dict?
  }

  /**
   * The value `merge_dicts(d1, d2)` returns: every key of either side;
   * `d2` wins, except that two dicts under the same key are merged in turn.
   */
  function Merge(d1: map<string, Value>, d2: map<string, Value>): (r: map<string, Value>)
    decreases Dict(d2)
    ensures r.Keys == d1.Keys + d2.Keys
    ensures forall k :: k in d1 && k !in d2 ==> r[k] == d1[k]
    ensures forall k :: k in d2 && !BothDicts(d1, d2, k) ==> r[k] == d2[k]
  {
    map k | k in d1.Keys + d2.Keys ::
      if BothDicts(d1, d2, k) then Dict(Merge(d1[k].entries, d2[k].entries))
      else if k in d2 then d2[k]
      else d1[k]
  }

  /**
   * `merge_dicts`: start from a copy of `dict1` and update it key by key
   * from `dict2`, recursing where both sides hold a dict.
   */
  method MergeDicts(dict1: map<string, Value>, dict2: map<string, Value>) returns (result: map<string, Value>)
    decreases Dict(dict2)
    ensures result == Merge(dict1, dict2)
    ensures result.Keys == dict1.Keys + dict2.Keys
    ensures forall k :: k in dict1 && k !in dict2 ==> result[k] == dict1[k]
    ensures forall k :: k in dict2 && !BothDicts(dict1, dict2, k) ==> result[k] == dict2[k]
    ensures forall k :: BothDicts(dict1, dict2, k) ==>
      result[k] == Dict(Merge(dict1[k].entries, dict2[k].entries))
  {
    result := dict1;
    var todo := dict2.Keys;
    while todo != {}
      invariant todo <= dict2.Keys
      invariant result.Keys == dict1.Keys + (dict2.Keys - todo)
      invariant forall k :: k in result && (k !in dict2 || k in todo) ==> result[k] == dict1[k]
      invariant forall k :: k in dict2 && k !in todo ==> result[k] == Merge(dict1, dict2)[k]
      decreases todo
    {
      var key :| key in todo;
      var value := dict2[key];
      if key in result && result[key].Dict? && value.Dict? {
        var merged := MergeDicts(result[key].entries, value.entries);
        result := result[key := Dict(merged)];
      } else {
        result := result[key := value];
      }
      todo := todo - {key};
    }
    assert result == Merge(dict1, dict2);
  }

  /** Merging an empty dict over `d` gives `d` back. */
  lemma MergeEmptyRight(d: map<string, Value>)
    ensures Merge(d, map[]) == d
  {
  }

  /** Merging `d` over an empty dict gives `d` back. */
  lemma MergeEmptyLeft(d: map<string, Value>)
    ensures Merge(map[], d) == d
  {
  }

  /** Merging a dict with itself changes nothing, at any depth. */
  lemma {:induction false} MergeIdempotent(d: map<string, Value>)
    decreases Dict(d)
    ensures Merge(d, d) == d
  {
    forall k | k in d && d[k].Dict?
      ensures Merge(d[k].entries, d[k].entries) == d[k].entries
    {
      MergeIdempotent(d[k].entries);
    }
  }

  /** Merging the same overrides a second time changes nothing. */
  lemma {:induction false} MergeReapply(base: map<string, Value>, overrides: map<string, Value>)
    decreases Dict(overrides)
    ensures Merge(Merge(base, overrides), overrides) == Merge(base, overrides)
  {
    var once := Merge(base, overrides);
    forall k | k in overrides && overrides[k].Dict? && once[k].Dict?
      ensures Merge(once[k].entries, overrides[k].entries) == once[k].entries
    {
      if BothDicts(base, overrides, k) {
        MergeReapply(base[k].entries, overrides[k].entries);
      } else {
        MergeIdempotent(overrides[k].entries);
      }
    }
  }

  /** `CONFIG_DEFAULTS`. */
  const ConfigDefaults: map<string, Value> := map[
    "allow_reconnect" := Bool(true),
    "max_reconnect_attempts" := Int(5),
    "reconnect_time_wait" := Int(1),
    "connect_timeout" := NoneValue
  ]

  /**
   * The defaults name exactly the four connection options; none of them is
   * a dict, so merging user settings over them never recurses; and only
   * `connect_timeout` is falsy, so by default it is the one option left out
   * of the connection arguments.
   */
  lemma DefaultsShape()
    ensures ConfigDefaults.Keys ==
      {"allow_reconnect", "max_reconnect_attempts", "reconnect_time_wait", "connect_timeout"}
    ensures forall k :: k in ConfigDefaults ==> !ConfigDefaults[k].Dict?
    ensures forall k :: k in ConfigDefaults ==> (Truthy(ConfigDefaults[k]) <==> k != "connect_timeout")
  {
  }

  /** Errors raised while the settings module loads. */
  datatype ConfigError =
    | SettingNotADict      // the Django setting is not a dict: `dict2.items()` fails
    | NatsServersNotAList  // the `ValueError` for `nats_servers`

  /**
   * `get_config(settings_name)`: the Django setting named `settingsName`
   * (by default "NATS_CONSUMER"; an empty dict when absent) merged over the
   * defaults.
   */
  function GetConfig(settings: map<string, Value>, settingsName: Option<string>): (r: Result<map<string, Value>, ConfigError>)
    ensures
      var name := if settingsName.Some? then settingsName.value else "NATS_CONSUMER";
      r.Failure? <==> name in settings && !settings[name].Dict?
    ensures r.Success? ==> ConfigDefaults.Keys <= r.value.Keys
    ensures r.Success? ==>
      var name := if settingsName.Some? then settingsName.value else "NATS_CONSUMER";
      var user := if name in settings then settings[name].entries else map[];
      && r.value.Keys == ConfigDefaults.Keys + user.Keys
      && (forall k :: k in user ==> r.value[k] == user[k])
      && (forall k :: k in ConfigDefaults && k !in user ==> r.value[k] == ConfigDefaults[k])
  {
    var name := if settingsName.Some? then settingsName.value else "NATS_CONSUMER";
    var user := if name in settings then settings[name] else Dict(map[]);
    if !user.Dict? then Failure(SettingNotADict)
    else
      MergeOverDefaults(user.entries);
      Success(Merge(ConfigDefaults, user.entries))
  }

  /** No default is a dict, so a user value always replaces its default outright. */
  lemma MergeOverDefaults(user: map<string, Value>)
    ensures Merge(ConfigDefaults, user).Keys == ConfigDefaults.Keys + user.Keys
    ensures forall k :: k in user ==> Merge(ConfigDefaults, user)[k] == user[k]
    ensures forall k :: k in ConfigDefaults && k !in user ==> Merge(ConfigDefaults, user)[k] == ConfigDefaults[k]
  {
    assert forall k :: k in ConfigDefaults ==> !ConfigDefaults[k].Dict?;
  }

  /** `config.get(key, default)`. */
  function Get(config: map<string, Value>, key: string, default: Value): Value
  {
    if key in config then config[key] else default
  }

  /**
   * `connection_args`: each of the four options is inserted, under its own
   * name, exactly when its value is truthy.
   */
  function ConnectionArgs(allowReconnect: Value, maxReconnectAttempts: Value, reconnectTimeWait: Value, connectTimeout: Value): (args: map<string, Value>)
    ensures args.Keys <= {"allow_reconnect", "max_reconnect_attempts", "reconnect_time_wait", "connect_timeout"}
    ensures "allow_reconnect" in args <==> Truthy(allowReconnect)
    ensures "max_reconnect_attempts" in args <==> Truthy(maxReconnectAttempts)
    ensures "reconnect_time_wait" in args <==> Truthy(reconnectTimeWait)
    ensures "connect_timeout" in args <==> Truthy(connectTimeout)
    ensures "allow_reconnect" in args ==> args["allow_reconnect"] == allowReconnect
    ensures "max_reconnect_attempts" in args ==> args["max_reconnect_attempts"] == maxReconnectAttempts
    ensures "reconnect_time_wait" in args ==> args["reconnect_time_wait"] == reconnectTimeWait
    ensures "connect_timeout" in args ==> args["connect_timeout"] == connectTimeout
  {
    var args: map<string, Value> := map[];
    var args := if Truthy(allowReconnect) then args["allow_reconnect" := allowReconnect] else args;
    var args := if Truthy(maxReconnectAttempts) then args["max_reconnect_attempts" := maxReconnectAttempts] else args;
    var args := if Truthy(reconnectTimeWait) then args["reconnect_time_wait" := reconnectTimeWait] else args;
    var args := if Truthy(connectTimeout) then args["connect_timeout" := connectTimeout] else args;
    args
  }

  /** What the settings module exports once it has loaded. */
  datatype NatsSettings = NatsSettings(
    config: map<string, Value>,
    natsServers: seq<Value>,
    allowReconnect: Value,
    maxReconnectAttempts: Value,
    reconnectTimeWait: Value,
    connectTimeout: Value,
    connectionArgs: map<string, Value>)

  /**
   * The module-level code of settings.py: load the configuration, insist
   * that `nats_servers` is a list, read the four connection options with
   * their defaults and build `connection_args`.
   */
  function LoadSettings(settings: map<string, Value>): (r: Result<NatsSettings, ConfigError>)
    ensures r.Failure? && r.error == SettingNotADict <==> GetConfig(settings, None).Failure?
    ensures r.Failure? && r.error == NatsServersNotAList <==>
      GetConfig(settings, None).Success? &&
      !("nats_servers" in GetConfig(settings, None).value && GetConfig(settings, None).value["nats_servers"].List?)
    ensures r.Success? ==>
      && r.value.config == GetConfig(settings, None).value
      && List(r.value.natsServers) == r.value.config["nats_servers"]
  {
    match GetConfig(settings, None)
    case Failure(e) => Failure(e)
    case Success(config) =>
      var natsServers := Get(config, "nats_servers", NoneValue);
      if !natsServers.List? then Failure(NatsServersNotAList)
      else
        var allowReconnect := Get(config, "allow_reconnect", Bool(true));
        var maxReconnectAttempts := Get(config, "max_reconnect_attempts", Int(5));
        var reconnectTimeWait := Get(config, "reconnect_time_wait", Int(1));
        var connectTimeout := Get(config, "connect_timeout", NoneValue);
        Success(NatsSettings(config, natsServers.items, allowReconnect, maxReconnectAttempts,
          reconnectTimeWait, connectTimeout,
          ConnectionArgs(allowReconnect, maxReconnectAttempts, reconnectTimeWait, connectTimeout)))
  }

  /**
   * Once the settings have loaded, `connection_args` holds exactly the
   * default options whose configured value is truthy, each with that value.
   */
  lemma LoadedConnectionArgs(settings: map<string, Value>)
    requires LoadSettings(settings).Success?
    ensures var loaded := LoadSettings(settings).value;
      forall k :: k in loaded.connectionArgs ==>
        k in loaded.config && Truthy(loaded.config[k]) && loaded.connectionArgs[k] == loaded.config[k]
    ensures var loaded := LoadSettings(settings).value;
      forall k :: k in ConfigDefaults ==> k in loaded.config && (k in loaded.connectionArgs <==> Truthy(loaded.config[k]))
    ensures LoadSettings(settings).value.connectionArgs.Keys <= ConfigDefaults.Keys
  {
    var loaded := LoadSettings(settings).value;
    ArgsFromConfig(loaded.config);
  }

  /** `connection_args` read from a config that holds every default key. */
  lemma ArgsFromConfig(config: map<string, Value>)
    requires ConfigDefaults.Keys <= config.Keys
    ensures var args := ConnectionArgs(config["allow_reconnect"], config["max_reconnect_attempts"],
        config["reconnect_time_wait"], config["connect_timeout"]);
      && (forall k :: k in args ==> k in config && Truthy(config[k]) && args[k] == config[k])
      && (forall k :: k in ConfigDefaults ==> (k in args <==> Truthy(config[k])))
      && args.Keys <= ConfigDefaults.Keys
  {
    var args := ConnectionArgs(config["allow_reconnect"], config["max_reconnect_attempts"],
      config["reconnect_time_wait"], config["connect_timeout"]);
    forall k | k in args ensures k in config && Truthy(config[k]) && args[k] == config[k] {
      assert k in ConfigDefaults;
    }
  }

  /** Without a `NATS_CONSUMER` setting there is no server list, so loading fails. */
  lemma MissingSettingFails(settings: map<string, Value>)
    requires "NATS_CONSUMER" !in settings
    ensures LoadSettings(settings) == Failure(NatsServersNotAList)
  {
    assert GetConfig(settings, None).value == ConfigDefaults;
  }

  /**
   * With only a server list configured, the defaults give reconnection on,
   * five attempts and a one-second wait, and no connect timeout (it is `None`).
   */
  lemma DefaultConnectionArgs(settings: map<string, Value>, servers: seq<Value>)
    requires "NATS_CONSUMER" in settings
    requires settings["NATS_CONSUMER"] == Dict(map["nats_servers" := List(servers)])
    ensures LoadSettings(settings).Success?
    ensures LoadSettings(settings).value.natsServers == servers
    ensures LoadSettings(settings).value.connectionArgs ==
      map["allow_reconnect" := Bool(true), "max_reconnect_attempts" := Int(5), "reconnect_time_wait" := Int(1)]
  {
    var config := GetConfig(settings, None).value;
    assert config["nats_servers"] == List(servers);
    assert config["connect_timeout"] == NoneValue;
  }
}
