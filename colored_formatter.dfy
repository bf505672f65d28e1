/** `_ColoredFormatter`: a formatter whose template depends on the record's
    level, wrapping the configured template in a per-level ANSI colour prefix
    and a reset suffix. */
module ColoredFormatter {
  import opened Wrappers
  import opened LogLevels

  const Escape: char := 27 as char

  const Green: string := [Escape] + "[32m"
  const Grey: string := [Escape] + "[38m"
  const Yellow: string := [Escape] + "[33m"
  const Red: string := [Escape] + "[31m"
  const BoldRed: string := [Escape] + "[31;1m"
  const Reset: string := [Escape] + "[0m"

  /** The colour each level is shown in. */
  const Colours: map<int, string> :=
    map[DEBUG := Grey, INFO := Green, WARNING := Yellow, ERROR := Red, CRITICAL := BoldRed]

  /** The `FORMATS` table built by the constructor from the template `fmt`. */
  function Formats(fmt: string): (m: map<int, string>)
    ensures m.Keys == Colours.Keys
  {
    map[DEBUG := Grey + fmt + Reset,
        INFO := Green + fmt + Reset,
        WARNING := Yellow + fmt + Reset,
        ERROR := Red + fmt + Reset,
        CRITICAL := BoldRed + fmt + Reset]
  }

  /** `FORMATS.get(record.levelno)`: the template used for a record of level
      `levelno`; `None` for a level outside the table (the library then falls
      back to its default template). */
  function TemplateFor(formats: map<int, string>, levelno: int): Option<string> {
    if levelno in formats then Some(formats[levelno]) else None
  }

  /** Removes `level`'s colour prefix and the reset suffix from `s`, when `s`
      has both: the inverse of colouring a template. */
  function Uncolour(level: int, s: string): (r: Option<string>)
    ensures r.Some? ==> level in Colours && Colours[level] + r.value + Reset == s
  {
    if level !in Colours then None
    else
      var p := Colours[level];
      if |p| + |Reset| <= |s| && s[..|p|] == p && s[|s| - |Reset|..] == Reset then
        assert s == s[..|p|] + s[|p|..|s| - |Reset|] + s[|s| - |Reset|..];
        Some(s[|p|..|s| - |Reset|])
      else None
  }

  /** For each of the five levels the table holds colour prefix + `fmt` +
      reset, and no other level has an entry. */
  lemma TemplateForColours(fmt: string, levelno: int)
    ensures TemplateFor(Formats(fmt), levelno)
            == if levelno in Colours then Some(Colours[levelno] + fmt + Reset) else None
  {
  }

  /** Colouring loses nothing: the configured template is recovered from
      every entry of the table. */
  lemma UncolourFormats(fmt: string, level: int)
    requires level in Colours
    ensures Uncolour(level, Formats(fmt)[level]) == Some(fmt)
  {
  }

  /** Two different levels never share a template, so a coloured record's
      colour identifies its level. */
  lemma FormatsDistinct(fmt: string, l1: int, l2: int)
    requires l1 in Colours && l2 in Colours && l1 != l2
    ensures Formats(fmt)[l1] != Formats(fmt)[l2]
  {
    var s1, s2 := Formats(fmt)[l1], Formats(fmt)[l2];
    assert s1 == Colours[l1] + fmt + Reset && s2 == Colours[l2] + fmt + Reset;
    assert s1[3] == Colours[l1][3] && s1[4] == Colours[l1][4];
    assert s2[3] == Colours[l2][3] && s2[4] == Colours[l2][4];
  }
}
