/**
 * The debug options read from the `[DEBUG]` section of the configuration: a record
 * built once from the parsed ini file, or the all-off defaults when there is none.
 */
module DebugOptions {
  import opened Wrappers
  import opened ConfigParser
  import opened Decimal

  datatype DebugOptions = DebugOptions(exportErrorlog: bool, consoleOut: bool, splitSegmentSec: int, dryRun: bool)

  /** The values used when no configuration is given. */
  const Defaults := DebugOptions(false, false, 0, false)

  const Section := "DEBUG"

  lemma ParseIntZero()
    ensures ParseInt("0") == Success(0)
  {
    var zero := "0";
    assert AllDigits(zero) && zero[..0] == [];
    assert DigitsValue(zero) == 0;
    ParseIntOfDigits(zero);
  }

  /**
   * `DebugOptions(config)`: the all-off defaults without a configuration; otherwise
   * each flag is the test `== "True"` on its stored text (fallback `"False"`), and
   * `split_segment_sec` goes through `int()` with `"0"` as fallback.
   */
  function FromConfig(config: Option<Config>): (r: Result<DebugOptions, ValueError>)
    ensures config.None? ==> r == Success(Defaults)
  {
    match config
    case None => Success(Defaults)
    case Some(c) =>
      var exportErrorlog := Get(c, Section, "export_errorlog", "False") == "True";
      var stored := Get(c, Section, "split_segment_sec", "0");
      match ParseInt(stored)
      case Failure(e) => Failure(e)
      case Success(seconds) =>
        var dryRun := Get(c, Section, "dry_run", "False") == "True";
        var consoleOut := Get(c, Section, "console_out", "False") == "True";
        Success(DebugOptions(exportErrorlog, consoleOut, seconds, dryRun))
  }

  /**
   * With a configuration, each flag is on exactly when its stored text is `"True"`;
   * a missing `split_segment_sec` gives 0, a stored one its `int()` value, and a
   * text `int()` rejects makes construction fail with that `ValueError`.
   */
  lemma FromConfigReads(c: Config)
    ensures var r := FromConfig(Some(c));
      var stored := Lookup(c, Section, "split_segment_sec");
      && (r.Success? <==> stored.None? || ParseInt(stored.value).Success?)
      && (r.Failure? ==> r.error == InvalidLiteral(stored.value))
      && (r.Success? ==>
          && (r.value.exportErrorlog <==> Lookup(c, Section, "export_errorlog") == Some("True"))
          && (r.value.dryRun <==> Lookup(c, Section, "dry_run") == Some("True"))
          && (r.value.consoleOut <==> Lookup(c, Section, "console_out") == Some("True"))
          && (stored.None? ==> r.value.splitSegmentSec == 0)
          && (stored.Some? ==> ParseInt(stored.value) == Success(r.value.splitSegmentSec)))
  {
    var stored := Lookup(c, Section, "split_segment_sec");
    if stored.None? {
      ParseIntZero();
    }
  }

  /**
   * A configuration whose `[DEBUG]` lookups find none of the four options (an empty
   * or absent section, and no such option under `[DEFAULT]`) gives the same record
   * as no configuration at all: every fallback equals its default.
   */
  lemma MissingOptionsGiveDefaults(c: Config)
    requires Lookup(c, Section, "export_errorlog") == None
    requires Lookup(c, Section, "split_segment_sec") == None
    requires Lookup(c, Section, "dry_run") == None
    requires Lookup(c, Section, "console_out") == None
    ensures FromConfig(Some(c)) == FromConfig(None)
  {
    assert Get(c, Section, "split_segment_sec", "0") == "0";
    ParseIntZero();
  }

  /** Without a `[DEBUG]` section every option falls back, whatever `[DEFAULT]` holds. */
  lemma AbsentSectionGivesDefaults(c: Config)
    requires Section !in c.sections
    ensures FromConfig(Some(c)) == Success(Defaults)
  {
    MissingOptionsGiveDefaults(c);
  }

  /** A stored `str(n)` is read back as `n`. */
  lemma SplitSegmentRoundTrip(c: Config, n: int)
    requires Lookup(c, Section, "split_segment_sec") == Some(IntToDecimal(n))
    ensures FromConfig(Some(c)).Success?
    ensures FromConfig(Some(c)).value.splitSegmentSec == n
  {
    ParseIntOfDecimal(n);
    FromConfigReads(c);
  }
}
