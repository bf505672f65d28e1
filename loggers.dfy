/** The part of Python's `logging` registry that the configuration code
    touches: named loggers, each with a level, a propagate flag and the list
    of handlers added to it. `logging.getLogger(name)` hands out one logger
    per name, created on first use. */
module Loggers {
  import opened LogLevels

  /** How a handler renders a record: a plain `logging.Formatter` over one
      template, or a `_ColoredFormatter` holding its per-level table. */
  datatype Formatter = Plain(fmt: string) | Colored(formats: map<int, string>)

  /** A `StreamHandler` writing to standard output. */
  datatype Handler = Handler(level: int, formatter: Formatter)

  datatype Logger = Logger(level: int, propagate: bool, handlers: seq<Handler>)

  /** A logger as `getLogger` creates it: level NOTSET, propagating, no handlers. */
  const FreshLogger: Logger := Logger(NOTSET, true, [])

  /** `logging.getLogger(name)` read from a registry state: the logger already
      registered under `name`, or a fresh one. */
  function GetLogger(loggers: map<string, Logger>, name: string): (l: Logger)
    ensures name !in loggers ==> l == FreshLogger
  {
    if name in loggers then loggers[name] else FreshLogger
  }

  // ---------------------------------------------------------------------------
  // Which templates `logging.Formatter(fmt=...)` accepts

  predicate IsWordChar(c: char) {
    ('a' <= c <= 'z') || ('A' <= c <= 'Z') || ('0' <= c <= '9') || c == '_'
  }

  predicate IsDigit(c: char) {
    '0' <= c <= '9'
  }

  predicate IsFlag(c: char) {
    c == '#' || c == '0' || c == '+' || c == ' ' || c == '-'
  }

  predicate IsConversion(c: char) {
    c in "diouxefgcrsaDIOUXEFGCRSA%"
  }

  /** The first position at or after `i` whose character is not `p`. */
  function Skip(s: string, i: nat, p: char -> bool): (j: nat)
    requires i <= |s|
    ensures i <= j <= |s| && (j < |s| ==> !p(s[j]))
    ensures forall k :: i <= k < j ==> p(s[k])
    decreases |s| - i
  {
    if i < |s| && p(s[i]) then Skip(s, i + 1, p) else i
  }

  /** Where an optional precision `.*` or `.digits` starting at `w` ends. */
  function SkipPrecision(s: string, w: nat): (p: nat)
    requires w <= |s|
    ensures w <= p <= |s|
  {
    if w + 1 < |s| && s[w] == '.' && s[w + 1] == '*' then w + 2
    else if w + 1 < |s| && s[w] == '.' && IsDigit(s[w + 1]) then Skip(s, w + 1, IsDigit)
    else w
  }

  /** A `%(name)` field with optional flags, width and precision and a
      conversion character starts at `i`: the library's validation pattern
      for `%`-style templates matches there. */
  predicate FieldAt(s: string, i: nat)
    requires i <= |s|
  {
    i + 2 <= |s| && s[i] == '%' && s[i + 1] == '('
    && var n := Skip(s, i + 2, IsWordChar);
    n > i + 2 && n < |s| && s[n] == ')'
    && var f := Skip(s, n + 1, IsFlag);
    var w := if f < |s| && s[f] == '*' then f + 1 else Skip(s, f, IsDigit);
    var p := SkipPrecision(s, w);
    p < |s| && IsConversion(s[p])
  }

  /** Some field starts at or after `i`. */
  predicate HasFieldFrom(s: string, i: nat)
    requires i <= |s|
    decreases |s| - i
  {
    i < |s| && (FieldAt(s, i) || HasFieldFrom(s, i + 1))
  }

  /** `logging.Formatter(fmt=fmt)` constructs without raising: an empty
      template falls back to the default `%(message)s`, any other template
      needs at least one field (otherwise `ValueError`). */
  predicate TemplateAccepted(fmt: string) {
    fmt == "" || HasFieldFrom(fmt, 0)
  }

  /** Any template holding a `%(name)s` field is accepted, whatever
      surrounds it. */
  lemma FieldIsAccepted(pre: string, name: string, post: string)
    requires name != [] && forall k :: 0 <= k < |name| ==> IsWordChar(name[k])
    ensures TemplateAccepted(pre + "%(" + name + ")s" + post)
  {
    var s := pre + "%(" + name + ")s" + post;
    var i := |pre|;
    assert s[i] == '%' && s[i + 1] == '(';
    assert forall k :: 0 <= k < |name| ==> s[i + 2 + k] == name[k];
    var n := i + 2 + |name|;
    assert s[n] == ')' && s[n + 1] == 's';
    SkipStops(s, i + 2, n, IsWordChar);
    assert Skip(s, n + 1, IsFlag) == n + 1;
    assert Skip(s, n + 1, IsDigit) == n + 1;
    assert FieldAt(s, i);
    HasFieldReaches(s, 0, i);
  }

  /** Skipping over a run of `p` characters stops right after the run. */
  lemma {:induction false} SkipStops(s: string, i: nat, j: nat, p: char -> bool)
    requires i <= j < |s| && !p(s[j]) && forall k :: i <= k < j ==> p(s[k])
    ensures Skip(s, i, p) == j
    decreases j - i
  {
    if i < j {
      SkipStops(s, i + 1, j, p);
    }
  }

  /** A field at `j` is found by a search starting at any `i <= j`. */
  lemma {:induction false} HasFieldReaches(s: string, i: nat, j: nat)
    requires i <= j <= |s| && FieldAt(s, j)
    ensures HasFieldFrom(s, i)
    decreases j - i
  {
    if i < j {
      HasFieldReaches(s, i + 1, j);
    }
  }

  /** A template without any `%` is rejected, unless it is empty. */
  lemma {:induction false} NoPercentRejected(fmt: string, i: nat)
    requires i <= |fmt| && forall k :: i <= k < |fmt| ==> fmt[k] != '%'
    ensures !HasFieldFrom(fmt, i)
    ensures i == 0 && fmt != "" ==> !TemplateAccepted(fmt)
    decreases |fmt| - i
  {
    if i < |fmt| {
      NoPercentRejected(fmt, i + 1);
    }
  }

  /** The process-wide logger registry. */
  class Registry {
    var loggers: map<string, Logger>

    constructor ()
      ensures loggers == map[]
    {
      loggers := map[];
    }

    /** `getLogger(name).setLevel(level)` */
    method SetLevel(name: string, level: int)
      modifies this
      ensures loggers == old(loggers)[name := GetLogger(old(loggers), name).(level := level)]
    {
      loggers := loggers[name := GetLogger(loggers, name).(level := level)];
    }

    /** `getLogger(name).addHandler(h)` for a handler object not yet attached:
        it is appended. The library skips a handler object that is already
        attached; `_init_logger` always passes a newly built one, so that
        case never arises here and equal handlers are appended again. */
    method AddHandler(name: string, h: Handler)
      modifies this
      ensures loggers == old(loggers)[name := GetLogger(old(loggers), name).(handlers := GetLogger(old(loggers), name).handlers + [h])]
    {
      var l := GetLogger(loggers, name);
      loggers := loggers[name := l.(handlers := l.handlers + [h])];
    }

    /** `getLogger(name).propagate = p` */
    method SetPropagate(name: string, p: bool)
      modifies this
      ensures loggers == old(loggers)[name := GetLogger(old(loggers), name).(propagate := p)]
    {
      loggers := loggers[name := GetLogger(loggers, name).(propagate := p)];
    }
  }
}
