/** The numeric severity levels of Python's `logging` library and the
    level-name table that the configuration loader looks level names up in. */
module LogLevels {
  import opened Wrappers

  const NOTSET: int := 0
  const DEBUG: int := 10
  const INFO: int := 20
  const WARNING: int := 30
  const ERROR: int := 40
  const CRITICAL: int := 50

  /** The `levels` dictionary of `_init_from_file_impl`: the only names a
      configuration may use; any other name is a `KeyError`. */
  const LevelNames: map<string, int> :=
    map["DEBUG" := DEBUG, "INFO" := INFO, "WARNING" := WARNING, "ERROR" := ERROR, "CRITICAL" := CRITICAL]

  /** A level that a configuration can assign to a group. */
  predicate IsConfigLevel(level: int) {
    level == DEBUG || level == INFO || level == WARNING || level == ERROR || level == CRITICAL
  }

  /** The library's own name for each of the five levels (what `%(levelname)s`
      prints); an independent statement of the table read backwards. */
  function NameOf(level: int): (r: Option<string>)
    ensures r.Some? <==> IsConfigLevel(level)
  {
    if level == DEBUG then Some("DEBUG")
    else if level == INFO then Some("INFO")
    else if level == WARNING then Some("WARNING")
    else if level == ERROR then Some("ERROR")
    else if level == CRITICAL then Some("CRITICAL")
    else None
  }

  /** The name table is a bijection between the five names and the five
      configurable levels: reading a name's level back gives the name, and
      every configurable level is reached by exactly its own name. */
  lemma LevelNamesRoundTrip(name: string, level: int)
    ensures name in LevelNames ==> IsConfigLevel(LevelNames[name]) && NameOf(LevelNames[name]) == Some(name)
    ensures NameOf(level) == Some(name) ==> name in LevelNames && LevelNames[name] == level
  {
  }
}
