/**
 * The terminal as the interactive commands see it through click 7: a
 * transcript of the lines the user types, read one prompt at a time. An
 * empty line is "Enter". Running out of lines is end of input, on which
 * click raises `Abort` and the command exits with status 1.
 */
module Prompt {
  import opened Wrappers
  import Strings

  /** What one prompt gives back: the answer and the lines not yet read, or end of input. */
  datatype Read<T> = Answer(value: T, rest: seq<string>) | EndOfInput

  /** `click.prompt(msg, type=int, default=d)`: Enter gives `d`, an integer literal its value, anything else asks again. */
  function AskInt(lines: seq<string>, default: int): (r: Read<int>)
    ensures r.Answer? ==> |r.rest| < |lines|
    decreases |lines|
  {
    if lines == [] then EndOfInput
    else if lines[0] == "" then Answer(default, lines[1..])
    else
      match Strings.ParseInt(lines[0])
      case Some(n) => Answer(n, lines[1..])
      case None => AskInt(lines[1..], default)
  }

  /** `click.prompt(msg, type=str)` without a default: Enter asks again. */
  function AskText(lines: seq<string>): (r: Read<string>)
    ensures r.Answer? ==> r.value != []
    decreases |lines|
  {
    if lines == [] then EndOfInput
    else if lines[0] == "" then AskText(lines[1..])
    else Answer(lines[0], lines[1..])
  }

  /**
   * `click.prompt(msg, type=int, default=d)` with a string default `d`:
   * click 7 hands back Enter's default unconverted, and a typed integer
   * as that integer (rendered here in decimal).
   */
  function AskIntOrDefaultText(lines: seq<string>, default: string): (r: Read<string>)
    decreases |lines|
  {
    if lines == [] then EndOfInput
    else if lines[0] == "" then Answer(default, lines[1..])
    else
      match Strings.ParseInt(lines[0])
      case Some(n) => Answer(Strings.Decimal(n), lines[1..])
      case None => AskIntOrDefaultText(lines[1..], default)
  }

  /** `click.confirm(msg)`: `y`/`yes` accept, `n`/`no` and Enter decline (case-insensitive), anything else asks again. */
  function Confirm(lines: seq<string>): (r: Read<bool>)
    decreases |lines|
  {
    if lines == [] then EndOfInput
    else
      var v := Strings.Lower(lines[0]);
      if v == "y" || v == "yes" then Answer(true, lines[1..])
      else if v == "n" || v == "no" || v == "" then Answer(false, lines[1..])
      else Confirm(lines[1..])
  }

  /** Typing the decimal form of `k` at an integer prompt answers `k`. */
  lemma AskIntTyped(lines: seq<string>, default: int, k: int)
    requires lines != [] && lines[0] == Strings.Decimal(k)
    ensures AskInt(lines, default) == Answer(k, lines[1..])
  {
    Strings.ParseDecimal(k);
  }

  /** At an integer prompt with a text default, typing the decimal form of `k` answers that form. */
  lemma AskIntOrDefaultTextTyped(lines: seq<string>, default: string, k: int)
    requires lines != [] && lines[0] == Strings.Decimal(k)
    ensures AskIntOrDefaultText(lines, default) == Answer(Strings.Decimal(k), lines[1..])
  {
    Strings.ParseDecimal(k);
  }
}
