/**
 * The configuration errors of the front end and the one-line diagnostics
 * that main writes to standard error before exiting with status 1.
 */
module Diagnostics {
  import opened Wrappers
  import Numbers

  datatype Error =
    | UnknownShortOption(option: char)  // a letter other than 'v' or 'i' in a short-option cluster
    | UnknownLongOption(name: string)   // "--name" other than "--cmd" and "--run_local_fwd"
    | NotAnInteger(text: string)        // strconv.Atoi refused a hop index or a port
    | KeyUnavailable(path: string)      // the key file could not be read or parsed
    | NoHops                            // no hop descriptor among the arguments
    | ForwardWithoutCommand             // --run_local_fwd given but no command

  const SHORT_PREFIX: string := "Unknown short option '"
  const LONG_PREFIX: string := "unknown long opt: "

  /**
   * The diagnostic for an unknown short option, quoting the option letter
   * as the user typed it.
   */
  function ShortOptionMessage(option: char): string {
    SHORT_PREFIX + [option] + "'"
  }

  /**
   * The diagnostic as nssh formats it: the option is a Go rune, and
   * the %v verb prints a rune as its code point in decimal.
   */
  function ShortOptionMessageAsWritten(option: char): string {
    SHORT_PREFIX + Numbers.FormatInt(option as int) + "'"
  }

  /**
   * The text main prints, for the errors whose wording the front end
   * chooses; None for the errors worded by strconv and the key loader.
   */
  function Message(e: Error): (m: Option<string>)
    ensures m.Some? <==> !e.NotAnInteger? && !e.KeyUnavailable?
    ensures e.UnknownShortOption? ==> |SHORT_PREFIX| <= |m.value| && m.value[|SHORT_PREFIX|..] == [e.option, '\'']
    ensures e.UnknownLongOption? ==> |LONG_PREFIX| <= |m.value| && m.value[|LONG_PREFIX|..] == e.name
  {
    match e
    case UnknownShortOption(c) => Some(ShortOptionMessage(c))
    case UnknownLongOption(name) => Some(LONG_PREFIX + name)
    case NotAnInteger(_) => None
    case KeyUnavailable(_) => None
    case NoHops => Some("no ssh hops")
    case ForwardWithoutCommand => Some("run_local_fwd requested without command")
  }

  /** The corrected diagnostic names the offending letter between the quotes. */
  lemma ShortOptionMessageQuotes(option: char)
    ensures ShortOptionMessage(option)[|SHORT_PREFIX|..] == [option, '\'']
  {
  }

  /**
   * As written, the quotes hold only digits, so no letter the user typed
   * ever appears there: "-x" is reported as option '120'.
   */
  lemma {:induction false} ShortOptionMessageAsWrittenHidesOption(option: char)
    requires !Numbers.IsDigit(option) && option != '\''
    ensures option !in ShortOptionMessageAsWritten(option)[|SHORT_PREFIX|..]
    ensures ShortOptionMessageAsWritten(option) != ShortOptionMessage(option)
  {
    var digits := Numbers.FormatInt(option as int);
    assert digits == Numbers.NatDigits(option as int);
    assert ShortOptionMessageAsWritten(option)[|SHORT_PREFIX|..] == digits + "'";
    assert ShortOptionMessage(option)[|SHORT_PREFIX|] == option;
  }

  lemma ShortOptionMessageAsWrittenExample()
    ensures ShortOptionMessageAsWritten('x') == "Unknown short option '120'"
  {
    assert Numbers.NatDigits(120) == "120";
  }

  /** Different errors worded by the front end give different diagnostics. */
  lemma MessageIdentifiesError(e1: Error, e2: Error)
    requires Message(e1).Some? && Message(e1) == Message(e2)
    ensures e1 == e2
  {
    var m := Message(e1).value;
    if e1.UnknownShortOption? && e2.UnknownShortOption? {
      assert m[|SHORT_PREFIX|] == e1.option == e2.option;
    } else if e1.UnknownLongOption? && e2.UnknownLongOption? {
      assert m[|LONG_PREFIX|..] == e1.name == e2.name;
    } else {
      assert m[0] == Message(e2).value[0];
    }
  }
}
