/** `LogConfig` and the `LogMng` singleton: loading a parsed configuration
    document into the manager's configuration, and pushing every configured
    group into the logger registry. */
module LogManager {
  import opened Wrappers
  import opened LogLevels
  import opened Loggers
  import ColoredFormatter

  const DefaultFormat: string :=
    "%(asctime)23s %(levelname)8s %(process)6d:%(threadName)-10s %(class)15s:%(class_id)-8s %(message)s"

  /** The manager's configuration: group name to numeric level, the record
      template, and the `colored` and `propagate` switches. */
  datatype LogConfig = LogConfig(groups: map<string, int>, format: string, colored: bool, propagate: bool)

  const DefaultConfig: LogConfig := LogConfig(map[], DefaultFormat, false, false)

  /** One `"group": "LEVEL"` pair of the parsed `logged_groups` object, in
      the object's iteration order. */
  datatype GroupEntry = GroupEntry(group: string, level: string)

  /** A parsed configuration document. For `format` and `logged_groups` a key
      that is absent and a key whose value is `null` are the same: `get`
      returns `None` for both. For `propagate` and `colored`, `None` here is
      an absent key, which `get` reads as False. */
  datatype Doc = Doc(
    format: Option<string>,
    loggedGroups: Option<seq<GroupEntry>>,
    propagate: Option<bool>,
    colored: Option<bool>)

  /** The exceptions loading can raise: `KeyError` for a level name outside the
      table, `AttributeError` when `logged_groups` is missing (`None.items()`),
      and `ValueError` when `logging.Formatter` rejects the template. */
  datatype ConfigError = UnknownLevel(name: string) | MissingLoggedGroups | RejectedTemplate(fmt: string)

  /** A parsed object names each group once. */
  predicate DistinctGroups(entries: seq<GroupEntry>) {
    forall i, j :: 0 <= i < j < |entries| ==> entries[i].group != entries[j].group
  }

  /** A document as `json.load` can produce it: `logged_groups`, when
      present, has one entry per group name. */
  predicate WellFormed(doc: Doc) {
    doc.loggedGroups.Some? ==> DistinctGroups(doc.loggedGroups.value)
  }

  // ---------------------------------------------------------------------------
  // Writing the groups table entry by entry

  /** The groups table after the loop, and the first unknown level name if
      the loop stopped on one. */
  datatype Written = Written(groups: map<string, int>, bad: Option<string>)

  /** The loop of `_init_from_file_impl` over `logged_groups`: each entry
      overwrites its group's level in turn; the first unknown level name
      stops the loop with the entries before it already written. */
  function WriteGroups(groups: map<string, int>, entries: seq<GroupEntry>): Written
    decreases |entries|
  {
    if entries == [] then Written(groups, None)
    else if entries[0].level !in LevelNames then Written(groups, Some(entries[0].level))
    else WriteGroups(groups[entries[0].group := LevelNames[entries[0].level]], entries[1..])
  }

  predicate AllKnown(entries: seq<GroupEntry>) {
    forall i :: 0 <= i < |entries| ==> entries[i].level in LevelNames
  }

  function Mentioned(entries: seq<GroupEntry>): set<string> {
    set e | e in entries :: e.group
  }

  /** The loop completes exactly when every level name is in the table. */
  lemma {:induction false} WriteGroupsSucceedsIffKnown(groups: map<string, int>, entries: seq<GroupEntry>)
    ensures WriteGroups(groups, entries).bad.None? <==> AllKnown(entries)
    decreases |entries|
  {
    if entries != [] && entries[0].level in LevelNames {
      var rest := entries[1..];
      WriteGroupsSucceedsIffKnown(groups[entries[0].group := LevelNames[entries[0].level]], rest);
      assert forall i :: 0 <= i < |rest| ==> rest[i] == entries[i + 1];
      if AllKnown(rest) {
        forall i | 0 <= i < |entries| ensures entries[i].level in LevelNames {
          if i > 0 { assert entries[i] == rest[i - 1]; }
        }
      }
    }
  }

  /** A group no entry mentions keeps its presence and its level. */
  lemma {:induction false} WriteGroupsKeepsUnmentioned(groups: map<string, int>, entries: seq<GroupEntry>, g: string)
    requires g !in Mentioned(entries)
    ensures var w := WriteGroups(groups, entries);
            (g in w.groups <==> g in groups) && (g in groups ==> w.groups[g] == groups[g])
    decreases |entries|
  {
    if entries != [] && entries[0].level in LevelNames {
      assert entries[0] in entries;
      assert Mentioned(entries[1..]) <= Mentioned(entries) by {
        forall x | x in Mentioned(entries[1..]) ensures x in Mentioned(entries) {
          var e :| e in entries[1..] && e.group == x;
          assert e in entries;
        }
      }
      WriteGroupsKeepsUnmentioned(groups[entries[0].group := LevelNames[entries[0].level]], entries[1..], g);
    }
  }

  /** When the loop completes, the group of each entry holds the level that
      entry names. */
  lemma {:induction false} WriteGroupsSetsMentioned(groups: map<string, int>, entries: seq<GroupEntry>, i: int)
    requires AllKnown(entries) && DistinctGroups(entries) && 0 <= i < |entries|
    ensures var w := WriteGroups(groups, entries);
            entries[i].group in w.groups && w.groups[entries[i].group] == LevelNames[entries[i].level]
    decreases |entries|
  {
    var rest := entries[1..];
    var next := groups[entries[0].group := LevelNames[entries[0].level]];
    assert WriteGroups(groups, entries) == WriteGroups(next, rest);
    if i == 0 {
      forall j | 0 <= j < |rest| ensures rest[j].group != entries[0].group {
        assert rest[j] == entries[j + 1];
      }
      WriteGroupsKeepsUnmentioned(next, rest, entries[0].group);
    } else {
      assert forall k :: 0 <= k < |rest| ==> rest[k] == entries[k + 1];
      assert DistinctGroups(rest) by {
        forall a, b | 0 <= a < b < |rest| ensures rest[a].group != rest[b].group {
          assert rest[a] == entries[a + 1] && rest[b] == entries[b + 1];
        }
      }
      WriteGroupsSetsMentioned(next, rest, i - 1);
    }
  }

  /** When entry `k` is the first with an unknown level name, the loop stops
      there: the table holds exactly what the entries before `k` wrote and
      the error names entry `k`'s level. */
  lemma {:induction false} WriteGroupsStopsAtFirstUnknown(groups: map<string, int>, entries: seq<GroupEntry>, k: int)
    requires 0 <= k < |entries| && AllKnown(entries[..k]) && entries[k].level !in LevelNames
    ensures WriteGroups(groups, entries) == Written(WriteGroups(groups, entries[..k]).groups, Some(entries[k].level))
    ensures WriteGroups(groups, entries[..k]).bad == None
    decreases k
  {
    WriteGroupsSucceedsIffKnown(groups, entries[..k]);
    if k > 0 {
      assert entries[..k][0] == entries[0];
      var next := groups[entries[0].group := LevelNames[entries[0].level]];
      var rest := entries[1..];
      assert rest[..k - 1] == entries[..k][1..];
      assert AllKnown(rest[..k - 1]) by {
        forall i | 0 <= i < k - 1 ensures rest[i].level in LevelNames {
          assert rest[i] == entries[..k][i + 1];
        }
      }
      WriteGroupsStopsAtFirstUnknown(next, rest, k - 1);
    }
  }

  // ---------------------------------------------------------------------------
  // Applying a document to the configuration

  datatype Applied = Applied(cfg: LogConfig, outcome: Outcome<ConfigError>)

  /** `_init_from_file_impl` on an already-parsed document: replace the
      template when the document has one, write the groups, then overwrite
      both switches (absent means False). An error leaves whatever was
      written before it. */
  function ApplyConfig(cfg: LogConfig, doc: Doc): Applied {
    var formatted := if doc.format.Some? then cfg.(format := doc.format.value) else cfg;
    match doc.loggedGroups
    case None => Applied(formatted, Fail(MissingLoggedGroups))
    case Some(entries) =>
      var w := WriteGroups(formatted.groups, entries);
      var written := formatted.(groups := w.groups);
      if w.bad.Some? then Applied(written, Fail(UnknownLevel(w.bad.value)))
      else Applied(written.(propagate := doc.propagate.GetOr(false), colored := doc.colored.GetOr(false)), Pass)
  }

  /** Loading succeeds exactly when `logged_groups` is present and every level
      name in it is in the table; a missing `logged_groups` is the
      `AttributeError` and leaves the groups untouched. */
  lemma ApplyConfigOutcome(cfg: LogConfig, doc: Doc)
    requires WellFormed(doc)
    ensures ApplyConfig(cfg, doc).outcome.Pass?
            <==> doc.loggedGroups.Some? && AllKnown(doc.loggedGroups.value)
    ensures ApplyConfig(cfg, doc).outcome == Fail(MissingLoggedGroups)
            <==> doc.loggedGroups.None?
    ensures doc.loggedGroups.None? ==> ApplyConfig(cfg, doc).cfg.groups == cfg.groups
  {
    if doc.loggedGroups.Some? {
      var formatted := if doc.format.Some? then cfg.(format := doc.format.value) else cfg;
      WriteGroupsSucceedsIffKnown(formatted.groups, doc.loggedGroups.value);
    }
  }

  /** The template is replaced only when the document gives one, whatever the
      outcome; otherwise the previous template is kept. */
  lemma ApplyConfigFormat(cfg: LogConfig, doc: Doc)
    ensures ApplyConfig(cfg, doc).cfg.format == doc.format.GetOr(cfg.format)
  {
  }

  /** On success `propagate` and `colored` take the document's values, or
      False when absent, so a previous True is not kept; on failure they are
      not reached and keep their previous values. */
  lemma ApplyConfigFlags(cfg: LogConfig, doc: Doc)
    ensures var r := ApplyConfig(cfg, doc);
            r.outcome.Pass? ==> r.cfg.propagate == doc.propagate.GetOr(false) && r.cfg.colored == doc.colored.GetOr(false)
    ensures var r := ApplyConfig(cfg, doc);
            r.outcome.Fail? ==> r.cfg.propagate == cfg.propagate && r.cfg.colored == cfg.colored
  {
  }

  /** Groups the document does not mention keep their levels, and are neither
      added nor removed, whatever the outcome. */
  lemma ApplyConfigKeepsUnmentioned(cfg: LogConfig, doc: Doc, g: string)
    requires doc.loggedGroups.Some? ==> g !in Mentioned(doc.loggedGroups.value)
    ensures var r := ApplyConfig(cfg, doc);
            (g in r.cfg.groups <==> g in cfg.groups) && (g in cfg.groups ==> r.cfg.groups[g] == cfg.groups[g])
  {
    if doc.loggedGroups.Some? {
      WriteGroupsKeepsUnmentioned(cfg.groups, doc.loggedGroups.value, g);
    }
  }

  /** After a successful load each mentioned group holds the numeric level
      its entry names. */
  lemma ApplyConfigSetsMentioned(cfg: LogConfig, doc: Doc, i: int)
    requires WellFormed(doc) && doc.loggedGroups.Some? && AllKnown(doc.loggedGroups.value)
    requires 0 <= i < |doc.loggedGroups.value|
    ensures var e := doc.loggedGroups.value[i]; var r := ApplyConfig(cfg, doc);
            r.outcome.Pass? && e.group in r.cfg.groups && r.cfg.groups[e.group] == LevelNames[e.level]
  {
    WriteGroupsSucceedsIffKnown(cfg.groups, doc.loggedGroups.value);
    WriteGroupsSetsMentioned(cfg.groups, doc.loggedGroups.value, i);
  }

  /** An unknown level name at entry `k` (the first one) raises `KeyError` for
      that name after the entries before it have been written; the entries
      after it are not. */
  lemma ApplyConfigPartialOnError(cfg: LogConfig, doc: Doc, k: int)
    requires WellFormed(doc) && doc.loggedGroups.Some? && 0 <= k < |doc.loggedGroups.value|
    requires AllKnown(doc.loggedGroups.value[..k]) && doc.loggedGroups.value[k].level !in LevelNames
    ensures var entries := doc.loggedGroups.value; var r := ApplyConfig(cfg, doc);
            r.outcome == Fail(UnknownLevel(entries[k].level))
            && r.cfg.groups == WriteGroups(cfg.groups, entries[..k]).groups
  {
    WriteGroupsStopsAtFirstUnknown(cfg.groups, doc.loggedGroups.value, k);
  }

  // ---------------------------------------------------------------------------
  // Pushing the configuration into the logger registry

  /** The handler `_init_logger` builds: level DEBUG, a coloured formatter
      when `colored` is set, a plain one otherwise, over the current template. */
  function NewHandler(cfg: LogConfig): Handler {
    Handler(DEBUG, if cfg.colored then Colored(ColoredFormatter.Formats(cfg.format)) else Plain(cfg.format))
  }

  /** A logger after `_init_logger`: the given level, the configured
      propagate flag, and one more handler. */
  function ConfiguredLogger(l: Logger, level: int, cfg: LogConfig): Logger {
    Logger(level, cfg.propagate, l.handlers + [NewHandler(cfg)])
  }

  /** The registry after `_init_logger` has run for the groups in `gs`. */
  function ConfigureGroups(loggers: map<string, Logger>, cfg: LogConfig, gs: set<string>): map<string, Logger>
    requires gs <= cfg.groups.Keys
  {
    map g | g in loggers.Keys + gs ::
      if g in gs then ConfiguredLogger(GetLogger(loggers, g), cfg.groups[g], cfg) else loggers[g]
  }

  /** `_init_logger` can build its handler: a coloured handler never hands
      the template to `logging.Formatter`, and a plain one needs the template
      to pass the `%`-style validation of `logging.Formatter(fmt=...)`. */
  predicate HandlerBuildable(cfg: LogConfig) {
    cfg.colored || TemplateAccepted(cfg.format)
  }

  /** `init_logged_groups` runs to completion: there is no group to
      configure, or every handler can be built. */
  predicate Configurable(cfg: LogConfig) {
    cfg.groups == map[] || HandlerBuildable(cfg)
  }

  /** The default template passes the formatter's validation. */
  lemma DefaultFormatAccepted()
    ensures TemplateAccepted(DefaultFormat)
    ensures Configurable(DefaultConfig)
  {
    var k := |DefaultFormat| - 11;
    assert DefaultFormat == DefaultFormat[..k] + "%(" + "message" + ")s" + "";
    FieldIsAccepted(DefaultFormat[..k], "message", "");
  }

  /** The registry after `init_logged_groups`, and whether it raised. */
  datatype Configured = Configured(loggers: map<string, Logger>, outcome: Outcome<ConfigError>)

  /** `init_logged_groups`: when the handler can be built, every configured
      group's logger takes its configured level and the configured propagate
      flag and gains one handler, and every other logger is untouched. When
      it cannot, the first `_init_logger` raises `ValueError` before it has
      touched any logger, and no later group is reached. */
  function ConfigureAll(loggers: map<string, Logger>, cfg: LogConfig): (r: Configured)
    ensures r.outcome.Pass? <==> Configurable(cfg)
    ensures r.outcome.Fail? ==> r.outcome.error == RejectedTemplate(cfg.format) && r.loggers == loggers
    ensures r.outcome.Pass? ==> r.loggers.Keys == loggers.Keys + cfg.groups.Keys
    ensures r.outcome.Pass? ==> forall g :: g in cfg.groups ==>
              r.loggers[g].level == cfg.groups[g] && r.loggers[g].propagate == cfg.propagate
              && r.loggers[g].handlers == GetLogger(loggers, g).handlers + [NewHandler(cfg)]
    ensures forall g :: g in loggers && g !in cfg.groups ==> g in r.loggers && r.loggers[g] == loggers[g]
  {
    if Configurable(cfg) then Configured(ConfigureGroups(loggers, cfg, cfg.groups.Keys), Pass)
    else Configured(loggers, Fail(RejectedTemplate(cfg.format)))
  }

  /** Running `init_logged_groups` twice adds two identical handlers to every
      configured group (handlers are never de-duplicated), or, when the
      template is rejected, fails both times and leaves the registry as it was. */
  lemma ConfigureAllTwice(loggers: map<string, Logger>, cfg: LogConfig, g: string)
    requires g in cfg.groups
    ensures var once := ConfigureAll(loggers, cfg);
            var twice := ConfigureAll(once.loggers, cfg);
            if HandlerBuildable(cfg) then
              twice.outcome.Pass? && twice.loggers[g].handlers
                == GetLogger(loggers, g).handlers + [NewHandler(cfg), NewHandler(cfg)]
            else
              once.outcome.Fail? && twice.outcome.Fail? && twice.loggers == loggers
  {
  }

  // ---------------------------------------------------------------------------
  // The manager

  /** What the manager and the registry hold together. */
  datatype MngState = MngState(cfg: LogConfig, isInit: bool, loggers: map<string, Logger>)

  /** `init_from_file`: load the document; only when that succeeds, mark the
      manager initialised and configure the registry, which may still raise
      on a rejected template after `is_init` is set. */
  function InitFromFileSpec(s: MngState, doc: Doc): (MngState, Outcome<ConfigError>) {
    var a := ApplyConfig(s.cfg, doc);
    if a.outcome.Fail? then (s.(cfg := a.cfg), a.outcome)
    else
      var c := ConfigureAll(s.loggers, a.cfg);
      (MngState(a.cfg, true, c.loggers), c.outcome)
  }

  /** Once initialised, the registry carries every configured group's level. */
  predicate LevelsApplied(s: MngState) {
    s.isInit ==> forall g :: g in s.cfg.groups ==> g in s.loggers && s.loggers[g].level == s.cfg.groups[g]
  }

  /** A failed load leaves the registry and the `is_init` flag as they were.
      A successful load initialises the manager; configuring then succeeds
      exactly when the loaded configuration is configurable, and leaves every
      configured group's logger at its configured level. A rejected template
      leaves the registry untouched although the manager is initialised. */
  lemma InitFromFileSpecOutcome(s: MngState, doc: Doc)
    ensures var (s', o) := InitFromFileSpec(s, doc);
            ApplyConfig(s.cfg, doc).outcome.Fail? ==>
              o == ApplyConfig(s.cfg, doc).outcome && s'.loggers == s.loggers && s'.isInit == s.isInit
    ensures var (s', o) := InitFromFileSpec(s, doc);
            ApplyConfig(s.cfg, doc).outcome.Pass? ==>
              s'.isInit && (o.Pass? <==> Configurable(s'.cfg))
              && (o.Fail? ==> o.error == RejectedTemplate(s'.cfg.format))
    ensures var (s', o) := InitFromFileSpec(s, doc);
            o.Pass? ==> s'.isInit && LevelsApplied(s')
    ensures var (s', o) := InitFromFileSpec(s, doc);
            o.Fail? ==> s'.loggers == s.loggers
  {
  }

  class LogMng {
    var logCfg: LogConfig
    var isInit: bool

    constructor ()
      ensures logCfg == DefaultConfig && !isInit
    {
      logCfg := DefaultConfig;
      isInit := false;
    }

    function State(reg: Registry): MngState
      reads this, reg
    {
      MngState(logCfg, isInit, reg.loggers)
    }

    /** `init_from_file`: load, then configure the registry; an exception from
        loading propagates before the registry is touched. */
    method InitFromFile(doc: Doc, reg: Registry) returns (res: Outcome<ConfigError>)
      modifies this, reg
      ensures (State(reg), res) == InitFromFileSpec(old(State(reg)), doc)
    {
      res := InitFromFileImpl(doc);
      if res.Fail? {
        return;
      }
      res := InitLoggedGroups(reg);
    }

    /** `_init_from_file_impl` on a parsed document. */
    method InitFromFileImpl(doc: Doc) returns (res: Outcome<ConfigError>)
      modifies this
      ensures Applied(logCfg, res) == ApplyConfig(old(logCfg), doc)
      ensures isInit == (old(isInit) || res.Pass?)
    {
      if doc.format.Some? {
        logCfg := logCfg.(format := doc.format.value);
      }
      if doc.loggedGroups.None? {
        return Fail(MissingLoggedGroups);
      }
      var entries := doc.loggedGroups.value;
      ghost var formatted := logCfg;
      var i := 0;
      while i < |entries|
        invariant 0 <= i <= |entries|
        invariant logCfg == formatted.(groups := logCfg.groups)
        invariant WriteGroups(logCfg.groups, entries[i..]) == WriteGroups(formatted.groups, entries)
        invariant isInit == old(isInit)
      {
        var entry := entries[i];
        assert entries[i..][0] == entry && entries[i..][1..] == entries[i + 1..];
        if entry.level !in LevelNames {
          return Fail(UnknownLevel(entry.level));
        }
        logCfg := logCfg.(groups := logCfg.groups[entry.group := LevelNames[entry.level]]);
        i := i + 1;
      }
      logCfg := logCfg.(propagate := doc.propagate.GetOr(false), colored := doc.colored.GetOr(false));
      isInit := true;
      return Pass;
    }

    /** `init_logged_groups`: `_init_logger` for every configured group,
        stopping at the first one that raises. */
    method InitLoggedGroups(reg: Registry) returns (res: Outcome<ConfigError>)
      modifies reg
      ensures Configured(reg.loggers, res) == ConfigureAll(old(reg.loggers), logCfg)
    {
      var todo := logCfg.groups.Keys;
      ghost var done: set<string> := {};
      while todo != {}
        invariant todo + done == logCfg.groups.Keys && todo !! done
        invariant reg.loggers == ConfigureGroups(old(reg.loggers), logCfg, done)
        invariant done != {} ==> HandlerBuildable(logCfg)
        decreases todo
      {
        var g :| g in todo;
        ghost var before := reg.loggers;
        res := InitLogger(reg, g, logCfg.groups[g]);
        if res.Fail? {
          assert reg.loggers == old(reg.loggers);
          return;
        }
        assert GetLogger(before, g) == GetLogger(old(reg.loggers), g);
        todo := todo - {g};
        done := done + {g};
      }
      return Pass;
    }

    /** `_init_logger`: build the handler from the current configuration,
        which raises for a plain template the formatter rejects; otherwise
        set the group's logger level, add the handler, set its propagate flag. */
    method InitLogger(reg: Registry, group: string, level: int) returns (res: Outcome<ConfigError>)
      modifies reg
      ensures res.Pass? <==> HandlerBuildable(logCfg)
      ensures res.Fail? ==> res.error == RejectedTemplate(logCfg.format) && reg.loggers == old(reg.loggers)
      ensures res.Pass? ==>
                reg.loggers == old(reg.loggers)[group := ConfiguredLogger(GetLogger(old(reg.loggers), group), level, logCfg)]
    {
      if !logCfg.colored && !TemplateAccepted(logCfg.format) {
        return Fail(RejectedTemplate(logCfg.format));
      }
      var handler := NewHandler(logCfg);
      reg.SetLevel(group, level);
      reg.AddHandler(group, handler);
      reg.SetPropagate(group, logCfg.propagate);
      return Pass;
    }
  }
}
