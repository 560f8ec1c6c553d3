/**
 * Process start-up: filling in configuration defaults around the construction of
 * the storage driver, and the handler the expiry watcher runs for each
 * key-event message.
 */
module Start {
  import opened Wrappers
  import opened Strings
  import opened Storage

  /** The defaults `check_config` fills in before constructing the driver. */
  const StartupDefaults: map<string, ConfigValue> :=
    map["redis_host" := Str("localhost"), "redis_port" := Str("6379"), "storage_driver" := DriverClass(FileSystem)]

  /** The exit code when the storage driver cannot be constructed. */
  const DriverFailureExit: int := 2

  /** `config` with `defaults` filled in for the keys it lacks; keys already present keep their values. */
  function WithDefaults(config: map<string, ConfigValue>, defaults: map<string, ConfigValue>): (r: map<string, ConfigValue>)
    ensures r.Keys == config.Keys + defaults.Keys
    ensures forall k :: k in config ==> r[k] == config[k]
    ensures forall k :: k in defaults && k !in config ==> r[k] == defaults[k]
  {
    defaults + config
  }

  /** The three conditional assignments that open `check_config`. */
  method FillStartupDefaults(config: Config)
    modifies config
    ensures config.entries == WithDefaults(old(config.entries), StartupDefaults)
  {
    if "redis_host" !in config.entries {
      config.entries := config.entries["redis_host" := Str("localhost")];
    }
    if "redis_port" !in config.entries {
      config.entries := config.entries["redis_port" := Str("6379")];
    }
    if "storage_driver" !in config.entries {
      config.entries := config.entries["storage_driver" := DriverClass(FileSystem)];
    }
    WithDefaultsCharacterised(old(config.entries), StartupDefaults, config.entries);
  }

  /** The merge loop of `check_config`: each key of `defaults` missing from `config` is added. */
  method MergeDefaults(config: Config, defaults: map<string, ConfigValue>)
    modifies config
    ensures config.entries == WithDefaults(old(config.entries), defaults)
  {
    var pending := defaults.Keys;
    while pending != {}
      invariant pending <= defaults.Keys
      invariant config.entries.Keys == old(config.entries).Keys + (defaults.Keys - pending)
      invariant forall k :: k in old(config.entries) ==> config.entries[k] == old(config.entries)[k]
      invariant forall k :: k in defaults.Keys - pending && k !in old(config.entries) ==> config.entries[k] == defaults[k]
      decreases pending
    {
      var k :| k in pending;
      if k !in config.entries {
        config.entries := config.entries[k := defaults[k]];
      }
      pending := pending - {k};
    }
  }

  /** The three properties of `WithDefaults` determine the merged map. */
  lemma WithDefaultsCharacterised(config: map<string, ConfigValue>, defaults: map<string, ConfigValue>, r: map<string, ConfigValue>)
    requires r.Keys == config.Keys + defaults.Keys
    requires forall k :: k in config ==> r[k] == config[k]
    requires forall k :: k in defaults && k !in config ==> r[k] == defaults[k]
    ensures r == WithDefaults(config, defaults)
  {
  }

  /**
   * `check_config`: fills in the start-up defaults, constructs the configured driver
   * from the configuration as it stands, and only then fills in the driver's own
   * defaults. When construction fails the process exits with code 2 and nothing more
   * is merged. `reachable` and `existing` stand for the backend: whether it can be
   * reached, and what it already holds.
   */
  method CheckConfig(config: Config, reachable: bool, existing: map<string, seq<byte>>)
    returns (s: Driver?, exitCode: Option<int>)
    modifies config
    ensures
      var base := WithDefaults(old(config.entries), StartupDefaults);
      var cls := base["storage_driver"];
      if cls.DriverClass? && Constructs(cls.kind, base, reachable) then
        && exitCode == None
        && s != null && fresh(s) && s.kind == cls.kind && s.config == config && s.objects == existing
        && config.entries == WithDefaults(base, RequiredConfig(cls.kind))
        && s.Ready()
      else
        exitCode == Some(DriverFailureExit) && s == null && config.entries == base
  {
    FillStartupDefaults(config);
    ghost var base := config.entries;
    var cls := config.entries["storage_driver"];
    if !cls.DriverClass? {
      // calling something that is not a driver class raises
      return null, Some(DriverFailureExit);
    }
    s := Construct(cls.kind, config, reachable, existing);
    if s == null {
      return null, Some(DriverFailureExit);
    }
    MergeDefaults(config, RequiredConfig(s.kind));
    exitCode := None;
  }

  /** A key-event message: its `type` and its `data`, the name of the expired key. */
  datatype Message = Message(kind: string, data: string)

  /** What became of a message: handled, or an exception escaped the handler. */
  datatype Outcome = Handled | Raised

  /** The handler deletes the object of an expired key that carries no attribute suffix. */
  predicate ShouldDelete(msg: Message) {
    msg.kind == "pmessage" && !EndsWith(msg.data, "-t") && !EndsWith(msg.data, "-l")
  }

  /** The filesystem driver raises when asked to delete a file that is not there. */
  predicate DeleteRaises(kind: DriverKind, objects: map<string, seq<byte>>, id: string) {
    kind == FileSystem && id !in objects
  }

  /**
   * `message_handler` as written: calls `delete` for a `pmessage` about a primary key,
   * and lets the driver's exception escape.
   */
  method MessageHandler(s: Driver, msg: Message) returns (deleted: bool, outcome: Outcome)
    requires s.Ready()
    modifies s
    ensures deleted <==> msg.kind == "pmessage" && !EndsWith(msg.data, "-t") && !EndsWith(msg.data, "-l")
    ensures s.objects == if deleted then old(s.objects) - {msg.data} else old(s.objects)
    ensures outcome == Raised <==> deleted && DeleteRaises(s.kind, old(s.objects), msg.data)
  {
    deleted := ShouldDelete(msg);
    outcome := Handled;
    if deleted {
      var ok := s.Delete(msg.data);
      if !ok {
        outcome := Raised;
      }
    }
  }

  /**
   * The handler with the failed delete caught: the same deletions, and a missing
   * object never lets an exception reach the watcher thread.
   */
  method MessageHandlerTolerant(s: Driver, msg: Message) returns (deleted: bool, outcome: Outcome)
    requires s.Ready()
    modifies s
    ensures deleted <==> msg.kind == "pmessage" && !EndsWith(msg.data, "-t") && !EndsWith(msg.data, "-l")
    ensures s.objects == if deleted then old(s.objects) - {msg.data} else old(s.objects)
    ensures outcome == Handled
  {
    deleted := ShouldDelete(msg);
    outcome := Handled;
    if deleted {
      var _ := s.Delete(msg.data);
    }
  }

  /** A Redis key produced as `str(h)` of some hash `h`. */
  ghost predicate IsHashKey(k: string) {
    exists h: int :: k == IntToString(h)
  }

  /**
   * The expiry of an upload's primary key, a hash key, makes the handler delete its
   * object; the expiry of its content-type or content-length key deletes nothing.
   */
  lemma ExpiryDispatch(k: string)
    requires IsHashKey(k)
    ensures ShouldDelete(Message("pmessage", k))
    ensures !ShouldDelete(Message("pmessage", k + "-t")) && !ShouldDelete(Message("pmessage", k + "-l"))
  {
    var h :| k == IntToString(h);
    IntKeyIsNotSecondary(h);
    SecondaryKeyHasSuffix(k);
  }
}
