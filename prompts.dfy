/**
 * The console prompts of the samples read one line and replace an empty line
 * by a fixed default.
 */
module Prompts {

  /** A console line, or `fallback` when the line is empty. */
  function OrDefault(line: string, fallback: string): (r: string)
    ensures |line| < 1 ==> r == fallback
    ensures |line| >= 1 ==> r == line
  {
    if |line| < 1 then fallback else line
  }

  /** A prompt with a non-empty default never yields an empty value, and feeding its value back changes nothing. */
  lemma OrDefaultStable(line: string, fallback: string)
    requires fallback != ""
    ensures OrDefault(line, fallback) != ""
    ensures OrDefault(OrDefault(line, fallback), fallback) == OrDefault(line, fallback)
  {
  }
}
