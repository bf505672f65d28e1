# logged_groups, modelled in Dafny

`logged_groups` lets a Python class or function log under a named *group*.
Applying the decorator `logged_group("name")` first makes sure the
process-wide `LogMng` manager has loaded its JSON configuration. That
configuration holds a group → level table, a record template, and the
`colored` and `propagate` switches. The manager then pushes each configured
group into Python's logger registry: it sets the logger's level and
propagate flag and adds a stdout handler. A group that the configuration
does not name gets logger level CRITICAL. Each instance of a decorated class
gets five bound log methods (`debug` … `critical`). They are bound to a
`LoggerAdapter` whose identity record is `{class: class name, class_id:
the class_id keyword or ""}`. A decorated function is instead passed
`logger=` an adapter with identity `{class: function name, class_id: ""}`;
the function that the decorator returns is named `inner_wrapper`.
A separate decorator, `init_check`, makes an instance truthy exactly when
its original `__init__` returned without raising.

The model has one module per concern:

- `Wrappers`: Option, Result and Outcome.
- `LogLevels`: the library's numeric levels and the level-name table.
- `ColoredFormatter`: the per-level `FORMATS` table.
- `Loggers`: the logger registry, reduced to a map from name to
  (level, propagate, handlers).
- `LogManager`: `LogConfig`, the parsed document, `ApplyConfig`, and the
  class `LogMng` with its imperative loading and configuring methods.
- `LoggedGroups`: the decorator factory, the function/class dispatch, the
  identities and the instance constructor.
- `InitCheck`: the `init_check` decorator.

The imperative methods are proved against pure functions:
`LogMng.InitFromFileImpl` against `ApplyConfig`, `LogMng.InitLoggedGroups`
against `ConfigureAll`, `LogMng.InitFromFile` against `InitFromFileSpec`,
`LogMng.InitLogger` against `ConfiguredLogger` and `HandlerBuildable`, and
`LoggedGroups.LoggedGroup` against `LoggedGroupSpec`. The lemmas state the
source's rules about those functions.

Three rules of the code shape the lemmas:

- A group missing from the configuration gets logger level CRITICAL. CRITICAL
  records of such a group still pass the logger's level.
- A document with an unknown level name, or without `logged_groups`, makes
  loading raise part way. The template and the group entries before the bad
  one stay written. The exception escapes the decorator and `is_init` stays
  False, so the next decoration loads the file again on top of the partial
  write. When that next decoration succeeds, a group written before the bad
  entry that the new document does not mention ends configured at the level
  the failed load gave it (`FailedLoadCarriesOver`).
- A plain (uncoloured) template that `logging.Formatter` rejects passes
  loading, so `is_init` becomes True. The first `_init_logger` then raises
  `ValueError` before it touches any logger, and the exception escapes the
  decorator. The manager never loads again: the next decoration succeeds and
  the configured groups' loggers stay unconfigured
  (`RejectedTemplateLeavesNotset`). The level lemmas therefore hold for every
  manager that is not in this state (`Stuck`). `logging.Formatter` (Python
  3.8 and later) rejects a non-empty `%`-template with no `%(name)…`
  conversion field; `Loggers.TemplateAccepted` models that check.

## Model

| member | source | states |
|---|---|---|
| `LogLevels.NameOf` | logged_groups/logging.py:65-66 | a level has a name exactly when it is one of the five configurable levels |
| `LogLevels.LevelNamesRoundTrip` | logged_groups/logging.py:65-66 | the name table is a bijection between DEBUG/INFO/WARNING/ERROR/CRITICAL and 10/20/30/40/50 |
| `ColoredFormatter.Formats` | logged_groups/logging.py:31-37 | the table has an entry for exactly the five levels |
| `ColoredFormatter.TemplateForColours` | logged_groups/logging.py:31-40 | the template for each of the five levels is colour prefix + fmt + reset; any other level has no template |
| `ColoredFormatter.Uncolour` | logged_groups/logging.py:31-37 | a stripped result is exactly what lies between the level's colour prefix and the reset |
| `ColoredFormatter.UncolourFormats` | logged_groups/logging.py:31-37 | the configured template is recovered from every table entry (colouring loses nothing) |
| `ColoredFormatter.FormatsDistinct` | logged_groups/logging.py:24-37 | different levels never share a template |
| `Loggers.GetLogger` | logged_groups/logging.py:85 | a name not yet registered yields a fresh logger (NOTSET, propagating, no handlers) |
| `Loggers.Registry.SetLevel` | logged_groups/logging.py:86 | only the named logger's level changes |
| `Loggers.Registry.AddHandler` | logged_groups/logging.py:87 | the handler is appended to the named logger's handlers, with no de-duplication |
| `Loggers.Registry.SetPropagate` | logged_groups/logging.py:88 | only the named logger's propagate flag changes |
| `Loggers.FieldIsAccepted` | logged_groups/logging.py:83 | a template containing a `%(name)s` field passes the formatter's validation |
| `Loggers.NoPercentRejected` | logged_groups/logging.py:83 | a non-empty template without `%` fails the formatter's validation |
| `LogManager.WriteGroupsSucceedsIffKnown` | logged_groups/logging.py:65-68 | the groups loop completes exactly when every level name is in the table |
| `LogManager.WriteGroupsKeepsUnmentioned` | logged_groups/logging.py:67-68 | a group no entry mentions keeps its presence and level |
| `LogManager.WriteGroupsSetsMentioned` | logged_groups/logging.py:67-68 | for entries with distinct group names (a parsed object), on completion each group holds the level its entry names |
| `LogManager.WriteGroupsStopsAtFirstUnknown` | logged_groups/logging.py:67-68 | the loop stops at the first unknown name with exactly the earlier entries written, and reports that name |
| `LogManager.ApplyConfigOutcome` | logged_groups/logging.py:64-73 | for a parsed document, loading succeeds iff `logged_groups` is present and all its level names are known; a missing `logged_groups` is the AttributeError and leaves groups untouched |
| `LogManager.ApplyConfigFormat` | logged_groups/logging.py:60-62 | the template is replaced only when the document has one, whatever the outcome |
| `LogManager.ApplyConfigFlags` | logged_groups/logging.py:70-71 | on success propagate and colored take the document's values, or False when absent; on failure they keep their previous values |
| `LogManager.ApplyConfigKeepsUnmentioned` | logged_groups/logging.py:67-68 | groups the document does not mention are kept with their levels, whatever the outcome |
| `LogManager.ApplyConfigSetsMentioned` | logged_groups/logging.py:65-68 | for a parsed document, after a successful load each mentioned group holds its named level |
| `LogManager.ApplyConfigPartialOnError` | logged_groups/logging.py:67-68 | for a parsed document, a KeyError at entry k leaves exactly the writes of entries before k |
| `LogManager.ConfigureAll` | logged_groups/logging.py:75-88 | succeeds iff there are no groups or the handler can be built (coloured, or a template the formatter accepts); on success every configured group's logger gets its configured level and propagate and one more handler; on a rejected template the ValueError leaves every logger untouched; loggers of other names are always untouched |
| `LogManager.ConfigureAllTwice` | logged_groups/logging.py:80-87 | configuring twice adds two identical handlers per group, or fails twice leaving the registry as it was when the template is rejected |
| `LogManager.DefaultFormatAccepted` | logged_groups/logging.py:14-83 | the default template passes the formatter's validation, so the default configuration is configurable |
| `LogManager.InitFromFileSpecOutcome` | logged_groups/logging.py:52-88 | a failed load leaves registry and is_init unchanged; a successful load initialises, and configuring then succeeds iff the configuration is configurable, applying every configured level; a rejected template leaves the registry untouched with is_init True |
| `LogManager.LogMng.constructor` | logged_groups/logging.py:11-16 | a new manager holds the default configuration and is not initialised |
| `LogManager.LogMng.InitFromFile` | logged_groups/logging.py:52-54 | load, then configure the registry only if loading succeeded; the outcome is the first exception raised |
| `LogManager.LogMng.InitFromFileImpl` | logged_groups/logging.py:56-73 | the new configuration and outcome are those of `ApplyConfig`; is_init becomes True only on success |
| `LogManager.LogMng.InitLoggedGroups` | logged_groups/logging.py:75-77 | registry and outcome are those of `ConfigureAll` on the old registry, including the ValueError of a rejected template |
| `LogManager.LogMng.InitLogger` | logged_groups/logging.py:79-88 | raises exactly when the plain template is rejected, before any logger changes; otherwise only the group's logger changes: configured level, propagate flag, one more handler |
| `LoggedGroups.LoggedGroupNoReload` | logged_groups/logging.py:93-95 | an initialised manager never reloads, and decoration then always succeeds |
| `LoggedGroups.LoggedGroupFailure` | logged_groups/logging.py:52-95 | decoration fails only on an uninitialised manager and leaves the registry untouched: either loading failed and is_init stays False, or loading passed and the template was rejected with is_init True |
| `LoggedGroups.LoggedGroupLevel` | logged_groups/logging.py:93-99 | after a successful decoration the group's logger is at its configured level, or CRITICAL when unconfigured, and configured levels stay applied; a failure that leaves is_init True leaves a configuration that cannot be applied |
| `LoggedGroups.RejectedTemplateLeavesNotset` | logged_groups/logging.py:52-95 | with template "plain" the first decoration raises and sets is_init, the second succeeds without reloading, and the configured group's logger stays at NOTSET |
| `LoggedGroups.DecorateAllNoReload` | logged_groups/logging.py:91-95 | once initialised, no sequence of decorations changes the configuration |
| `LoggedGroups.DecorateAllLevels` | logged_groups/logging.py:91-99 | across any sequence of decorations a stuck manager stays stuck, and otherwise every attached group keeps its expected level |
| `LoggedGroups.FreshManagerLevels` | logged_groups/logging.py:91-99 | from a fresh manager, unless a rejected template left it stuck, every successfully decorated group ends at its expected level |
| `LoggedGroups.FailedLoadCarriesOver` | logged_groups/logging.py:64-99 | for any failed first load and any group it wrote that the next document does not mention, the manager stays uninitialised and, if the next decoration succeeds, that group is configured and its logger holds the level the failed load wrote |
| `LoggedGroups.FailedLoadCarriesOverExample` | logged_groups/logging.py:64-99 | an example: "a" written before the unknown name "LOUD" ends at INFO after the next load |
| `LoggedGroups.StuckLeavesConfiguredLoggers` | logged_groups/logging.py:93-99 | once stuck, no sequence of decorations changes the configuration or any configured group's logger |
| `LoggedGroups.LoggedGroup` | logged_groups/logging.py:91-99 | the decorator factory's effect on manager and registry, and its exception, are those of `LoggedGroupSpec` |
| `LoggedGroups.Wrap` | logged_groups/logging.py:119-130 | functions get a fixed adapter with identity {function name, ""} and come back named `inner_wrapper`; classes keep their name and their group for construction time |
| `LoggedGroups.RedecoratedFunctionIdentity` | logged_groups/logging.py:119-127 | decorating a decorated function gives the outer adapter the identity {"inner_wrapper", ""} |
| `LoggedGroups.ChainedForwardInnermostWins` | logged_groups/logging.py:123-125 | through two decorations the original function receives the innermost adapter, with its real name |
| `LoggedGroups.Forward` | logged_groups/logging.py:123-125 | positional args and other keywords pass unchanged; `logger` is always the decoration-time adapter, overriding the caller's |
| `LoggedGroups.ForwardSameLogger` | logged_groups/logging.py:119-125 | every call of a decorated function receives the same adapter |
| `LoggedGroups.ClassIdOf` | logged_groups/logging.py:105 | class_id defaults to "" when the keyword is absent |
| `LoggedGroups.AttachmentFor` | logged_groups/logging.py:104-113 | the five log methods are bound to one adapter with identity {class name, class_id} at their own levels |
| `LoggedGroups.InstancesDistinguishedByClassId` | logged_groups/logging.py:104-107 | two instances of one class share an attachment iff they have the same class_id |
| `LoggedGroups.LoggedInstance.constructor` | logged_groups/logging.py:104-114 | the log methods are bound before the original `__init__` runs, which sees them and gets the unchanged call; the instance ends with whatever class_id and log methods that `__init__` leaves |
| `InitCheck.InitChecked.constructor` | logged_groups/init_check.py:4-9 | the original `__init__` runs once on the unchanged arguments; its state is kept; the flag records whether it returned |
| `InitCheck.InitChecked.Bool` | logged_groups/init_check.py:13-14 | truthiness is the recorded flag |
| `InitCheck.ConstructAndTest` | logged_groups/init_check.py:4-14 | bool(obj) is True iff the original `__init__` returned normally; the state it reached is kept even when it raised |

## Left out

- `json.load` keeps the last value of a repeated key. The model takes the parsed object, so `LogManager.WellFormed` requires distinct group names; the lemmas about the loaded levels assume it.
- `Loggers.TemplateAccepted` reads `\w` and `\d` of the formatter's validation pattern as ASCII. Python also accepts non-ASCII letters and digits there.
- Python versions before 3.8 do not validate the template; the model follows 3.8 and later.
- Opening the file and `json.load`: the model takes the parsed document as a parameter. An unreadable file or bad JSON is not modelled, and neither is a top-level value that is not an object.
- Document values of other types are not modelled: a level that is not a string, or a `logged_groups` value that is not an object. An explicit `null` for `propagate` or `colored` stores Python's `None`, which is falsy; the model reads it as False.
- The path argument of `init_from_file`: the document stands for that file's content at the time of the call.
- `singleton_decorator.singleton`: the single `LogMng` object is passed explicitly.
- `LogMng.InitLoggedGroups` walks the configured groups in an unspecified order, not in the dict's insertion order. The resulting registry is the same for every order.
- Rendering and output are library internals and are not modelled: `StreamHandler` writing to stdout, `logging.Formatter` filling `%`-templates, `LoggerAdapter.process`, and the library's level check when a record is emitted. The logger hierarchy of dotted names, and the root logger that `getLogger("")` returns, are left out too.
- `LoggedGroups.LoggedInstance.constructor`: the original `__init__` of a `logged_group` class always returns here. An exception it raises would propagate unchanged out of construction; `init_check` is where exceptions are modelled.
- The rewriting of `__init__` and `__bool__` on the class object is modelled as explicit constructors. Decorating one class twice (wrappers chaining) and subclasses that override `__init__` are not modelled.
- `LoggedGroups.Forward` gives the call passed on to the original function, not that function's result.
- Entities that are neither plain functions nor classes (bound methods, callable objects) are not modelled.
- Calling `init_from_file` directly again on an initialised manager is modelled by `LogMng.InitFromFile`. The decoration lemmas cover only the path through `logged_group`.
