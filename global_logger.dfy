/** The package's global state: the zap configuration, the built logger and
    its sugared wrapper, and the level as the package itself remembers it. The
    zap library's Build is abstract: each call either makes a new logger, told
    apart from every earlier one by a serial number, or fails with an error that
    depends on the environment and is given to each call that builds. */
module GlobalLogger {
  import opened Wrappers
  import opened Levels
  import opened Emit

  /** The parts of zap.Config the package sets. In zap the level is an atomic
      cell shared with every logger built from the configuration, so a change
      to `level` reaches the installed logger without a rebuild. */
  datatype Config = Config(
    level: Level,
    outputPaths: seq<string>,
    errorOutputPaths: seq<string>,
    encoding: string,
    messageKey: string,
    levelKey: string,
    levelEncoder: string,
    timeEncoder: string)

  /** The zero zap.Config a Go program starts with. Its level is an unset atomic
      cell; it is taken to read as the zero Level, InfoLevel. */
  const ZeroConfig := Config(InfoLevel, [], [], "", "", "", "", "")

  /** The configuration decoded from the JSON text in init, before the time encoder is set. */
  const DefaultConfig := Config(DebugLevel, ["stderr"], ["stderr"], "console", "message", "level", "lowercase", "")

  /** The configuration init builds from: DefaultConfig with ISO8601 timestamps. */
  const InitialConfig := DefaultConfig.(timeEncoder := "ISO8601")

  /** A built *zap.Logger: a new instance, known by its serial number, writing
      to the sinks its configuration named when it was built. */
  datatype Backend = Backend(serial: nat, outputPaths: seq<string>, errorOutputPaths: seq<string>)

  /** A *zap.SugaredLogger, the sugared view of a backend. */
  datatype Sugared = Sugared(base: Backend)

  /** logger.Sugar(), lifted to a possibly nil logger. */
  function SugarOf(logger: Option<Backend>): Option<Sugared> {
    if logger.Some? then Some(Sugared(logger.value)) else None
  }

  /** The backends flushed when `logger` is replaced: the old one, if there was one. */
  function Retired(logger: Option<Backend>): seq<Backend> {
    if logger.Some? then [logger.value] else []
  }

  /** The package globals `cfg`, `logger`, `sugar` and `currentLevel`. */
  class Package {
    var cfg: Config
    var logger: Option<Backend>
    var sugar: Option<Sugared>
    var currentLevel: Level

    /** How many loggers zap has built so far; the next one gets this serial. */
    var builds: nat

    /** The backends Sync was called on, oldest first. */
    var synced: seq<Backend>

    /** The level is kept in two copies that always agree, and `sugar` is
        always the sugared view of `logger`. Every logger was built by an
        earlier call, the retired ones were synced once each in the order they
        were built, and the installed one is newer than all of them. */
    ghost predicate Valid()
      reads this
    {
      currentLevel == cfg.level && sugar == SugarOf(logger) &&
      (forall i :: 0 <= i < |synced| ==> synced[i].serial < builds) &&
      (forall i, j :: 0 <= i < j < |synced| ==> synced[i].serial < synced[j].serial) &&
      (logger.Some? ==>
        logger.value.serial < builds &&
        forall i :: 0 <= i < |synced| ==> synced[i].serial < logger.value.serial)
    }

    /** The installed logger is live: it has not been synced and retired. */
    lemma InstalledIsNotRetired()
      requires Valid() && logger.Some?
      ensures logger.value !in synced
    {
    }

    /** The globals before init runs: Go's zero values. */
    constructor ()
      ensures Valid()
      ensures cfg == ZeroConfig && logger == None && sugar == None
      ensures currentLevel == InfoLevel && builds == 0 && synced == []
    {
      cfg := ZeroConfig;
      logger := None;
      sugar := None;
      currentLevel := InfoLevel;
      builds := 0;
      synced := [];
    }

    /** The package initialiser: Debug level, the default configuration, and a
        first build. Decoding the embedded JSON cannot fail, since the text is
        fixed; a failed build panics. `failure` is the error zap's Build
        returns, if it fails. */
    method Init(failure: Option<string>) returns (o: Outcome)
      requires Valid()
      modifies this
      ensures Valid()
      ensures currentLevel == DebugLevel && cfg == InitialConfig
      ensures failure == None ==>
        o == Continue && builds == old(builds) + 1 &&
        logger == Some(Backend(old(builds), InitialConfig.outputPaths, InitialConfig.errorOutputPaths)) &&
        synced == old(synced) + Retired(old(logger))
      ensures failure != None ==>
        o == Unwind && logger == old(logger) && builds == old(builds) && synced == old(synced)
    {
      currentLevel := DebugLevel;
      cfg := DefaultConfig;
      cfg := cfg.(timeEncoder := "ISO8601");
      o := RebuildLoggerFromCfg(failure);
    }

    /** Sets both copies of the level; the output paths and the installed
        logger stay as they are. */
    method SetLevel(lv: Level)
      requires Valid()
      modifies this
      ensures Valid()
      ensures currentLevel == lv && cfg == old(cfg).(level := lv)
      ensures logger == old(logger) && sugar == old(sugar)
      ensures builds == old(builds) && synced == old(synced)
    {
      currentLevel := lv;
      cfg := cfg.(level := lv);
    }

    /** The level as the package remembers it, which is also the configuration's. */
    method GetLevel() returns (lv: Level)
      requires Valid()
      ensures lv == currentLevel && lv == cfg.level
    {
      lv := currentLevel;
    }

    /** Replaces the output paths and rebuilds. The paths are stored before the
        build is tried, so after a failed build they are the new ones while the
        old logger, writing to the old paths, stays installed. */
    method SetOutput(outputs: seq<string>, failure: Option<string>) returns (o: Outcome)
      requires Valid()
      modifies this
      ensures Valid()
      ensures cfg == old(cfg).(outputPaths := outputs) && currentLevel == old(currentLevel)
      ensures failure == None ==>
        o == Continue && builds == old(builds) + 1 &&
        logger == Some(Backend(old(builds), outputs, cfg.errorOutputPaths)) &&
        synced == old(synced) + Retired(old(logger))
      ensures failure != None ==>
        o == Unwind && logger == old(logger) && builds == old(builds) && synced == old(synced)
    {
      cfg := cfg.(outputPaths := outputs);
      o := RebuildLoggerFromCfg(failure);
    }

    /** Builds a logger from `cfg`. On success the old logger, if any, is synced
        and a new instance, never installed or retired before, is installed with
        its sugared view; on failure nothing changes and the call panics. */
    method RebuildLoggerFromCfg(failure: Option<string>) returns (o: Outcome)
      requires Valid()
      modifies this
      ensures Valid()
      ensures cfg == old(cfg) && currentLevel == old(currentLevel)
      ensures failure == None ==>
        o == Continue && builds == old(builds) + 1 &&
        logger == Some(Backend(old(builds), cfg.outputPaths, cfg.errorOutputPaths)) &&
        synced == old(synced) + Retired(old(logger))
      ensures failure == None ==> logger != old(logger) && logger.value !in old(synced)
      ensures failure != None ==>
        o == Unwind && logger == old(logger) && sugar == old(sugar) &&
        builds == old(builds) && synced == old(synced)
    {
      if failure == None {
        var newLogger := Backend(builds, cfg.outputPaths, cfg.errorOutputPaths);
        builds := builds + 1;
        if logger.Some? {
          synced := synced + [logger.value];
        }
        logger := Some(newLogger);
        SetSugar(SugarOf(logger));
        o := Continue;
      } else {
        o := Unwind;
      }
    }

    /** Installs a sugared logger. */
    method SetSugar(s: Option<Sugared>)
      modifies this`sugar
      ensures sugar == s
    {
      sugar := s;
    }
  }

  /** Once a logger is installed, neither SetLevel nor SetOutput leaves the
      package without a live one, whatever the build does. */
  method BackendStaysInstalled(p: Package, lv: Level, outputs: seq<string>, failure: Option<string>)
    returns (o: Outcome)
    requires p.Valid() && p.logger.Some?
    modifies p
    ensures p.Valid() && p.logger.Some? && p.logger.value !in p.synced && p.currentLevel == lv
    ensures p.cfg.outputPaths == outputs
  {
    p.SetLevel(lv);
    o := p.SetOutput(outputs, failure);
    p.InstalledIsNotRetired();
  }

  /** The package's own test chooses its outputs and then sets the level to
      Debug and later to Info; here each SetLevel is read back with GetLevel.
      If the build for the new outputs fails, the test ends with that panic. */
  method TestLevelChanges(p: Package, failure: Option<string>) returns (o: Outcome, first: Level, second: Level)
    requires p.Valid()
    modifies p
    ensures p.Valid()
    ensures p.cfg.outputPaths == ["stderr", "simplelogger_test.log"]
    ensures o == Unwind <==> failure != None
    ensures o == Continue ==> first == DebugLevel && second == InfoLevel
    ensures o == Continue ==> p.logger.Some? && p.logger.value.outputPaths == ["stderr", "simplelogger_test.log"]
  {
    o := p.SetOutput(["stderr", "simplelogger_test.log"], failure);
    first, second := p.currentLevel, p.currentLevel;
    if o == Continue {
      p.SetLevel(DebugLevel);
      first := p.GetLevel();
      p.SetLevel(InfoLevel);
      second := p.GetLevel();
    }
  }
}
