/** `logged_group(name)`: the decorator factory. It loads the configuration on
    first use, silences a group the configuration does not name, and returns
    a wrapper that equips a class's instances, or a function's calls, with a
    logger adapter carrying the unit's identity. */
module LoggedGroups {
  import opened Wrappers
  import opened LogLevels
  import opened Loggers
  import opened LogManager

  // ---------------------------------------------------------------------------
  // The decorator factory and its effect on the manager and the registry

  /** The `wrapper` closure that `logged_group(name)` returns; it remembers
      only the group name. */
  datatype Attacher = Attacher(group: string)

  /** The level a group's logger has once the group is attached: its
      configured level, or CRITICAL for a group the configuration omits. */
  function ExpectedLevel(cfg: LogConfig, group: string): int {
    if group in cfg.groups then cfg.groups[group] else CRITICAL
  }

  /** The unknown-group rule: a group absent from the configuration gets
      logger level CRITICAL; a configured group's logger is left alone. */
  function SilenceUnknown(s: MngState, group: string): MngState {
    if group in s.cfg.groups then s
    else s.(loggers := s.loggers[group := GetLogger(s.loggers, group).(level := CRITICAL)])
  }

  /** `logged_group(name)` before it returns the wrapper: load the
      configuration file (`doc` is its content) only when the manager is not
      yet initialised; an exception from loading escapes the decorator. */
  function LoggedGroupSpec(s: MngState, group: string, doc: Doc): (MngState, Result<Attacher, ConfigError>) {
    if !s.isInit then
      var (s1, o) := InitFromFileSpec(s, doc);
      if o.Fail? then (s1, Failure(o.error))
      else (SilenceUnknown(s1, group), Success(Attacher(group)))
    else (SilenceUnknown(s, group), Success(Attacher(group)))
  }

  /** On an initialised manager, decoration never reads the file again: the
      configuration is untouched whatever the file holds, and decoration
      always succeeds. */
  lemma LoggedGroupNoReload(s: MngState, group: string, doc: Doc)
    requires s.isInit
    ensures var (s', r) := LoggedGroupSpec(s, group, doc);
            s'.cfg == s.cfg && s'.isInit && r == Success(Attacher(group))
  {
  }

  /** Decoration fails only on an uninitialised manager and never touches
      the registry. Either loading fails, and the manager stays
      uninitialised, or loading succeeds and the first `_init_logger` raises
      on a rejected template, after `is_init` has been set. */
  lemma LoggedGroupFailure(s: MngState, group: string, doc: Doc)
    ensures var (s', r) := LoggedGroupSpec(s, group, doc);
            r.Failure? ==>
              !s.isInit && s'.loggers == s.loggers
              && ((!s'.isInit && ApplyConfig(s.cfg, doc).outcome == Fail(r.error))
                  || (s'.isInit && ApplyConfig(s.cfg, doc).outcome.Pass?
                      && r.error == RejectedTemplate(s'.cfg.format) && !Configurable(s'.cfg)))
  {
  }

  /** After a successful decoration the group's logger has its configured
      level, or CRITICAL when the configuration omits the group, and every
      configured group still has its configured level. A failed decoration
      that leaves the manager initialised leaves it with a configuration it
      cannot apply. */
  lemma LoggedGroupLevel(s: MngState, group: string, doc: Doc)
    requires LevelsApplied(s)
    ensures var (s', r) := LoggedGroupSpec(s, group, doc);
            (r.Success? || !s'.isInit ==> LevelsApplied(s'))
            && (r.Success? ==> s'.isInit && group in s'.loggers && s'.loggers[group].level == ExpectedLevel(s'.cfg, group))
            && (r.Failure? && s'.isInit ==> !Configurable(s'.cfg))
  {
  }

  /** The manager is initialised with a configuration whose handlers cannot
      be built: it never loads the file again, and decoration never
      configures its groups' loggers (`StuckLeavesConfiguredLoggers`). */
  predicate Stuck(s: MngState) {
    s.isInit && !Configurable(s.cfg)
  }

  /** A plain template without a `%(name)` field is accepted by the loader but
      rejected by `logging.Formatter`. The first decoration raises after
      setting `is_init`, so the second one succeeds without loading again,
      and the configured group's logger is never created or given its level:
      it stays at NOTSET. */
  lemma RejectedTemplateLeavesNotset(loggers: map<string, Logger>)
    requires "g" !in loggers
    ensures var plain := Doc(Some("plain"), Some([GroupEntry("g", "INFO")]), None, None);
            var (s1, r1) := LoggedGroupSpec(MngState(DefaultConfig, false, loggers), "g", plain);
            var (s2, r2) := LoggedGroupSpec(s1, "g", plain);
            r1 == Failure(RejectedTemplate("plain")) && Stuck(s1)
            && r2 == Success(Attacher("g")) && s2.cfg.groups == map["g" := INFO]
            && "g" !in s2.loggers && GetLogger(s2.loggers, "g").level == NOTSET
  {
    NoPercentRejected("plain", 0);
  }

  // ---------------------------------------------------------------------------
  // Any sequence of decorations

  /** One application of `logged_group`, with the configuration file's
      content at that moment. */
  datatype Decoration = Decoration(group: string, doc: Doc)

  /** The manager and registry after a sequence of decorations, and the
      groups whose decoration succeeded. */
  function DecorateAll(s: MngState, ds: seq<Decoration>): (MngState, set<string>)
    decreases |ds|
  {
    if ds == [] then (s, {})
    else
      var (s1, r) := LoggedGroupSpec(s, ds[0].group, ds[0].doc);
      var (s2, attached) := DecorateAll(s1, ds[1..]);
      (s2, if r.Success? then attached + {ds[0].group} else attached)
  }

  /** Every group in `attached` has the level the configuration gives it. */
  predicate Follows(s: MngState, attached: set<string>) {
    (attached != {} ==> s.isInit)
    && forall g :: g in attached ==> g in s.loggers && s.loggers[g].level == ExpectedLevel(s.cfg, g)
  }

  /** Once initialised, no number of further decorations changes the
      configuration. */
  lemma {:induction false} DecorateAllNoReload(s: MngState, ds: seq<Decoration>)
    requires s.isInit
    ensures DecorateAll(s, ds).0.cfg == s.cfg && DecorateAll(s, ds).0.isInit
    decreases |ds|
  {
    if ds != [] {
      LoggedGroupNoReload(s, ds[0].group, ds[0].doc);
      DecorateAllNoReload(LoggedGroupSpec(s, ds[0].group, ds[0].doc).0, ds[1..]);
    }
  }

  /** Through any sequence of decorations, unless the manager gets stuck with
      a rejected template, every successfully attached group's logger keeps
      the level the configuration gives it (CRITICAL when it omits the
      group), and configured levels stay applied. A stuck manager stays
      stuck. */
  lemma {:induction false} DecorateAllLevels(s: MngState, ds: seq<Decoration>, attached: set<string>)
    requires !Stuck(s) ==> LevelsApplied(s) && Follows(s, attached)
    ensures var (s', a) := DecorateAll(s, ds);
            (Stuck(s) ==> Stuck(s'))
            && (!Stuck(s') ==> LevelsApplied(s') && Follows(s', attached + a))
    decreases |ds|
  {
    if ds != [] {
      var d := ds[0];
      var (s1, r) := LoggedGroupSpec(s, d.group, d.doc);
      var attached1 := if r.Success? then attached + {d.group} else attached;
      if Stuck(s) {
        LoggedGroupNoReload(s, d.group, d.doc);
        assert Stuck(s1);
      } else {
        LoggedGroupLevel(s, d.group, d.doc);
        if s.isInit {
          LoggedGroupNoReload(s, d.group, d.doc);
          assert Follows(s1, attached);
        }
        assert !Stuck(s1) ==> LevelsApplied(s1) && Follows(s1, attached1);
      }
      DecorateAllLevels(s1, ds[1..], attached1);
      var (s2, a) := DecorateAll(s1, ds[1..]);
      assert DecorateAll(s, ds) == (s2, if r.Success? then a + {d.group} else a);
      assert attached1 + a == attached + (if r.Success? then a + {d.group} else a);
    }
  }

  /** From a freshly constructed manager, whatever the registry held and
      whatever the configuration file says at each decoration, every
      successfully decorated group ends at its expected level, unless a
      rejected template has left the manager stuck. */
  lemma FreshManagerLevels(loggers: map<string, Logger>, ds: seq<Decoration>)
    ensures var (s', a) := DecorateAll(MngState(DefaultConfig, false, loggers), ds);
            !Stuck(s') ==> forall g :: g in a ==> g in s'.loggers && s'.loggers[g].level == ExpectedLevel(s'.cfg, g)
  {
    DecorateAllLevels(MngState(DefaultConfig, false, loggers), ds, {});
  }

  /** Once stuck, no sequence of decorations changes the configuration or
      the logger of any configured group. */
  lemma {:induction false} StuckLeavesConfiguredLoggers(s: MngState, ds: seq<Decoration>, x: string)
    requires Stuck(s) && x in s.cfg.groups
    ensures var (s', _) := DecorateAll(s, ds);
            Stuck(s') && s'.cfg == s.cfg
            && (x in s'.loggers <==> x in s.loggers) && GetLogger(s'.loggers, x) == GetLogger(s.loggers, x)
    decreases |ds|
  {
    if ds != [] {
      LoggedGroupNoReload(s, ds[0].group, ds[0].doc);
      StuckLeavesConfiguredLoggers(LoggedGroupSpec(s, ds[0].group, ds[0].doc).0, ds[1..], x);
    }
  }

  /** A failed first load is not rolled back: a group it wrote, and which the
      next document does not mention, stays in the configuration, and when
      the next decoration succeeds its logger holds the level the failed load
      wrote. */
  lemma FailedLoadCarriesOver(s0: MngState, g: string, bad: Doc, good: Doc, x: string)
    requires !s0.isInit && ApplyConfig(s0.cfg, bad).outcome.Fail?
    requires x in ApplyConfig(s0.cfg, bad).cfg.groups
    requires good.loggedGroups.Some? ==> x !in Mentioned(good.loggedGroups.value)
    ensures var (s1, r1) := LoggedGroupSpec(s0, g, bad);
            var (s2, r2) := LoggedGroupSpec(s1, g, good);
            r1.Failure? && !s1.isInit
            && (r2.Success? ==> x in s2.cfg.groups && x in s2.loggers
                                && s2.loggers[x].level == ApplyConfig(s0.cfg, bad).cfg.groups[x])
  {
    var s1 := LoggedGroupSpec(s0, g, bad).0;
    LoggedGroupLevel(s1, g, good);
    ApplyConfigKeepsUnmentioned(s1.cfg, good, x);
  }

  /** An instance of `FailedLoadCarriesOver`: "a" is written before the
      unknown name "LOUD" and is configured by the next load. */
  lemma FailedLoadCarriesOverExample(loggers: map<string, Logger>)
    ensures var bad := Doc(None, Some([GroupEntry("a", "INFO"), GroupEntry("b", "LOUD")]), None, None);
            var good := Doc(None, Some([GroupEntry("c", "DEBUG")]), None, None);
            var (s1, r1) := LoggedGroupSpec(MngState(DefaultConfig, false, loggers), "c", bad);
            var (s2, r2) := LoggedGroupSpec(s1, "c", good);
            r1 == Failure(UnknownLevel("LOUD")) && r2.Success?
            && s2.cfg.groups == map["a" := INFO, "c" := DEBUG]
            && "a" in s2.loggers && s2.loggers["a"].level == INFO
  {
    var bad := Doc(None, Some([GroupEntry("a", "INFO"), GroupEntry("b", "LOUD")]), None, None);
    var good := Doc(None, Some([GroupEntry("c", "DEBUG")]), None, None);
    var s0 := MngState(DefaultConfig, false, loggers);
    var a1 := ApplyConfig(DefaultConfig, bad);
    assert a1 == Applied(DefaultConfig.(groups := map["a" := INFO]), Fail(UnknownLevel("LOUD")));
    var s1 := s0.(cfg := a1.cfg);
    assert LoggedGroupSpec(s0, "c", bad) == (s1, Failure(UnknownLevel("LOUD")));
    var a2 := ApplyConfig(s1.cfg, good);
    assert a2 == Applied(DefaultConfig.(groups := map["a" := INFO, "c" := DEBUG]), Pass);
    DefaultFormatAccepted();
    assert Configurable(a2.cfg);
  }

  /** `logged_group(name)` run against the manager and the registry. */
  method LoggedGroup(mng: LogMng, reg: Registry, group: string, doc: Doc) returns (res: Result<Attacher, ConfigError>)
    modifies mng, reg
    ensures (mng.State(reg), res) == LoggedGroupSpec(old(mng.State(reg)), group, doc)
  {
    if !mng.isInit {
      var loaded := mng.InitFromFile(doc, reg);
      if loaded.Fail? {
        return Failure(loaded.error);
      }
    }
    if group !in mng.logCfg.groups {
      reg.SetLevel(group, CRITICAL);
    }
    return Success(Attacher(group));
  }

  // ---------------------------------------------------------------------------
  // Identities, adapters and the wrapper

  /** An argument value as the wrapped code sees it. */
  datatype Value = Text(s: string) | LoggerValue(adapter: Adapter) | Opaque(id: int)

  /** The `extra` record each adapter adds to its log records:
      `{"class": ..., "class_id": ...}`. */
  datatype Identity = Identity(className: string, classId: Value)

  /** `logging.LoggerAdapter(logging.getLogger(group), extra)`: the logger is
      named by its group, since the registry holds one logger per name. */
  datatype Adapter = Adapter(loggerName: string, extra: Identity)

  /** Positional and keyword arguments of a call. */
  datatype Call = Call(args: seq<Value>, kws: map<string, Value>)

  /** What a decorator is applied to. */
  datatype Entity = Function(name: string) | Class(name: string)

  /** The decorated entity: a function bound to one adapter at decoration
      time, or a class whose instances build their adapter when constructed.
      `name` is the entity's `__name__` after decoration. */
  datatype Decorated = DecoratedFunction(name: string, logger: Adapter) | DecoratedClass(name: string, group: string)

  /** `function_wrapper` returns `inner_wrapper` itself, without copying the
      original function's metadata, so every decorated function is named so. */
  const InnerWrapperName: string := "inner_wrapper"

  /** `wrapper(entity)`: functions go to `function_wrapper`, which fixes the
      identity `{class: function name, class_id: ""}` and returns a function
      named `inner_wrapper`; everything else goes to `class_wrapper`, which
      returns the same class. */
  function Wrap(a: Attacher, e: Entity): (d: Decorated)
    ensures d.DecoratedFunction? <==> e.Function?
    ensures d.name == if e.Function? then InnerWrapperName else e.name
    ensures d.DecoratedFunction? ==> d.logger == Adapter(a.group, Identity(e.name, Text("")))
    ensures d.DecoratedClass? ==> d.group == a.group
  {
    match e
    case Function(name) => DecoratedFunction(InnerWrapperName, Adapter(a.group, Identity(name, Text(""))))
    case Class(name) => DecoratedClass(name, a.group)
  }

  /** `inner_wrapper(*args, **kwargs)`: the call passed on to the original
      function. Positional arguments and every other keyword pass unchanged;
      `logger` is always the decoration-time adapter, replacing any value the
      caller gave. */
  function Forward(d: Decorated, call: Call): (c: Call)
    requires d.DecoratedFunction?
    ensures c.args == call.args
    ensures c.kws.Keys == call.kws.Keys + {"logger"}
    ensures c.kws["logger"] == LoggerValue(d.logger)
    ensures forall k :: k in call.kws && k != "logger" ==> c.kws[k] == call.kws[k]
  {
    Call(call.args, call.kws["logger" := LoggerValue(d.logger)])
  }

  /** Every call of a decorated function receives the same adapter, fixed
      when the function was decorated, whatever the arguments. */
  lemma ForwardSameLogger(a: Attacher, name: string, c1: Call, c2: Call)
    ensures var d := Wrap(a, Function(name));
            Forward(d, c1).kws["logger"] == Forward(d, c2).kws["logger"]
            == LoggerValue(Adapter(a.group, Identity(name, Text(""))))
  {
  }

  /** Decorating an already decorated function records `inner_wrapper`, not
      the original name, as the identity of the outer adapter. */
  lemma RedecoratedFunctionIdentity(a1: Attacher, a2: Attacher, name: string)
    ensures var d1 := Wrap(a1, Function(name));
            var d2 := Wrap(a2, Function(d1.name));
            d2.logger == Adapter(a2.group, Identity(InnerWrapperName, Text("")))
  {
  }

  /** Through two layers of decoration the outer wrapper's `logger` is
      overwritten by the inner one, so the original function receives the
      innermost adapter, which carries its real name. */
  lemma ChainedForwardInnermostWins(a1: Attacher, a2: Attacher, name: string, call: Call)
    ensures var d1 := Wrap(a1, Function(name));
            var d2 := Wrap(a2, Function(d1.name));
            var c := Forward(d1, Forward(d2, call));
            c.args == call.args && c.kws["logger"] == LoggerValue(Adapter(a1.group, Identity(name, Text(""))))
  {
  }

  /** `kws.get("class_id", "")` */
  function ClassIdOf(call: Call): (v: Value)
    ensures "class_id" !in call.kws ==> v == Text("")
  {
    if "class_id" in call.kws then call.kws["class_id"] else Text("")
  }

  /** `logger.debug`, `logger.info`, ...: a log method bound to an adapter. */
  datatype BoundLog = BoundLog(adapter: Adapter, level: int)

  /** What the wrapped `__init__` puts on an instance before the original
      `__init__` runs. */
  datatype Attachment = Attachment(classId: Value, debug: BoundLog, info: BoundLog, warning: BoundLog, error: BoundLog, critical: BoundLog)

  /** The attachment of an instance of class `className` in `group`
      constructed with `call`: the five log methods bound to one adapter
      whose identity is the class name and the `class_id` keyword. */
  function AttachmentFor(group: string, className: string, call: Call): (a: Attachment)
    ensures a.classId == ClassIdOf(call)
    ensures var ad := Adapter(group, Identity(className, ClassIdOf(call)));
            a.debug == BoundLog(ad, DEBUG) && a.info == BoundLog(ad, INFO) && a.warning == BoundLog(ad, WARNING)
            && a.error == BoundLog(ad, ERROR) && a.critical == BoundLog(ad, CRITICAL)
  {
    var ad := Adapter(group, Identity(className, ClassIdOf(call)));
    Attachment(ClassIdOf(call), BoundLog(ad, DEBUG), BoundLog(ad, INFO), BoundLog(ad, WARNING), BoundLog(ad, ERROR), BoundLog(ad, CRITICAL))
  }

  /** Two instances of one decorated class get the same attachment exactly
      when they were given the same `class_id`: identities never mix, and
      nothing else in the arguments matters. */
  lemma InstancesDistinguishedByClassId(group: string, className: string, c1: Call, c2: Call)
    ensures AttachmentFor(group, className, c1) == AttachmentFor(group, className, c2)
            <==> ClassIdOf(c1) == ClassIdOf(c2)
  {
  }

  /** An instance of a decorated class. `state` stands for whatever the
      original `__init__` builds. The original `__init__` is given the
      instance as seen at that point (its attachment) and the call's
      arguments, and returns the attachment it leaves behind (it may rebind
      `_class_id` or any of the five log methods) with its own state. */
  class LoggedInstance<S> {
    var classId: Value
    var debug: BoundLog
    var info: BoundLog
    var error: BoundLog
    var critical: BoundLog
    var warning: BoundLog
    var state: S

    function Attached(): Attachment
      reads this
    {
      Attachment(classId, debug, info, warning, error, critical)
    }

    /** The `__init__` that `class_wrapper` installs: record `class_id`, bind
        the five log methods, then run the original `__init__` once with the
        unchanged arguments (including `class_id`); what it leaves on the
        instance is final. */
    constructor (d: Decorated, call: Call, origInit: (Attachment, Call) -> (Attachment, S))
      requires d.DecoratedClass?
      ensures Attached() == origInit(AttachmentFor(d.group, d.name, call), call).0
      ensures state == origInit(AttachmentFor(d.group, d.name, call), call).1
    {
      var id := ClassIdOf(call);
      var logger := Adapter(d.group, Identity(d.name, id));
      var dbg, inf, err, crit, warn :=
        BoundLog(logger, DEBUG), BoundLog(logger, INFO), BoundLog(logger, ERROR), BoundLog(logger, CRITICAL), BoundLog(logger, WARNING);
      classId := id;
      debug, info, error, critical, warning := dbg, inf, err, crit, warn;
      var (attached, st) := origInit(Attachment(id, dbg, inf, warn, err, crit), call);
      classId := attached.classId;
      debug, info, error, critical, warning := attached.debug, attached.info, attached.error, attached.critical, attached.warning;
      state := st;
    }
  }
}
