/**
 * The part of Python's `configparser.ConfigParser` that the application and the
 * debug options rely on: values of the `[DEFAULT]` section are visible from every
 * other section, option names are lower-cased on the way in and on lookup, and a
 * `fallback` is returned when the section or the option is missing.
 */
module ConfigParser {
  import opened Wrappers

  const DefaultSection := "DEFAULT"

  /** The parsed contents of an ini file: the `[DEFAULT]` options and every other section. */
  datatype Config = Config(defaults: map<string, string>, sections: map<string, map<string, string>>)

  const Empty := Config(map[], map[])

  /** `optionxform`: option names are lower-cased (ASCII letters; the names used here are ASCII). */
  function OptionXform(option: string): (r: string)
    ensures |r| == |option|
    ensures forall i :: 0 <= i < |r| ==> !('A' <= r[i] <= 'Z')
  {
    seq(|option|, i requires 0 <= i < |option| =>
      if 'A' <= option[i] <= 'Z' then (option[i] as int + 32) as char else option[i])
  }

  /** Two characters that are equal, or the same ASCII letter in upper and lower case. */
  predicate SameUpToCase(a: char, b: char) {
    || a == b
    || ('A' <= a <= 'Z' && b as int == a as int + 32)
    || ('A' <= b <= 'Z' && a as int == b as int + 32)
  }

  lemma SameCharUpToCase(x: string, y: string, i: int)
    requires |x| == |y| && 0 <= i < |x|
    ensures OptionXform(x)[i] == OptionXform(y)[i] <==> SameUpToCase(x[i], y[i])
  {
  }

  /** Two option names reach the same key exactly when they differ only in ASCII case. */
  lemma OptionXformSameKey(x: string, y: string)
    ensures OptionXform(x) == OptionXform(y) <==> |x| == |y| && forall i :: 0 <= i < |x| ==> SameUpToCase(x[i], y[i])
  {
    var a, b := OptionXform(x), OptionXform(y);
    if |x| == |y| {
      forall i | 0 <= i < |x|
        ensures a[i] == b[i] <==> SameUpToCase(x[i], y[i])
      {
        SameCharUpToCase(x, y, i);
      }
      if forall i :: 0 <= i < |x| ==> SameUpToCase(x[i], y[i]) {
        assert forall i :: 0 <= i < |a| ==> a[i] == b[i];
        assert a == b;
      }
    }
  }

  /** A stored key is already in lower case: lower-casing it again changes nothing. */
  lemma OptionXformIdempotent(option: string)
    ensures OptionXform(OptionXform(option)) == OptionXform(option)
  {
    var r := OptionXform(option);
    assert forall i :: 0 <= i < |r| ==> OptionXform(r)[i] == r[i];
  }

  /**
   * The value `get(section, option)` finds, if any: for `[DEFAULT]` only the defaults;
   * for another section its own value, else the default; nothing when the section is absent.
   */
  function Lookup(c: Config, section: string, option: string): (r: Option<string>)
    ensures section != DefaultSection && section !in c.sections ==> r == None
    ensures section == DefaultSection && OptionXform(option) in c.defaults ==> r == Some(c.defaults[OptionXform(option)])
    ensures (section != DefaultSection && section in c.sections && OptionXform(option) in c.sections[section])
            ==> r == Some(c.sections[section][OptionXform(option)])
    ensures (section != DefaultSection && section in c.sections && OptionXform(option) !in c.sections[section]
             && OptionXform(option) in c.defaults)
            ==> r == Some(c.defaults[OptionXform(option)])
    ensures r == None && (section == DefaultSection || section in c.sections) ==> OptionXform(option) !in c.defaults
  {
    var key := OptionXform(option);
    if section == DefaultSection then
      if key in c.defaults then Some(c.defaults[key]) else None
    else if section !in c.sections then None
    else if key in c.sections[section] then Some(c.sections[section][key])
    else if key in c.defaults then Some(c.defaults[key])
    else None
  }

  /** `get(section, option, fallback=fallback)` */
  function Get(c: Config, section: string, option: string, fallback: string): string {
    Lookup(c, section, option).GetOr(fallback)
  }

  /** `config["DEFAULT"][option] = value` */
  function SetDefault(c: Config, option: string, value: string): (r: Config)
    ensures r.sections == c.sections
    ensures Lookup(r, DefaultSection, option) == Some(value)
  {
    c.(defaults := c.defaults[OptionXform(option) := value])
  }

  /** Setting one default option leaves the lookups of every other option name as they were. */
  lemma SetDefaultOther(c: Config, option: string, value: string, other: string)
    requires OptionXform(option) != OptionXform(other)
    ensures Lookup(SetDefault(c, option, value), DefaultSection, other) == Lookup(c, DefaultSection, other)
  {
  }
}
