// Message content as the transcript memory and the durable stores see it.

module Transcript {
  import opened Prelude

  datatype Part =
    | Text(text: string)
    | InlineData(mime: string, data: seq<bv8>)

  datatype Content = Content(role: string, parts: seq<Part>)

  /** `at` is a clock reading in nanoseconds. */
  datatype Entry = Entry(content: Content, author: string, at: int)

  /** The first text part, trimmed. */
  function FirstText(parts: seq<Part>): Option<string> {
    if parts == [] then None
    else if parts[0].Text? then Some(Trim(parts[0].text))
    else FirstText(parts[1..])
  }

  /** The text an entry contributes to a summary. */
  function Spoken(e: Entry): Option<string> {
    var text := FirstText(e.content.parts);
    if text == Some("") then None else text
  }

  function SystemText(text: string): Content {
    Content("system", [Text(text)])
  }

  function Decimal(n: nat): (s: string)
    ensures s != ""
  {
    (if n < 10 then [] else Decimal(n / 10)) + ['0' + (n % 10) as char]
  }

  /** The number that decimal digits spell. */
  function Number(s: string): int {
    if s == "" then 0 else 10 * Number(s[..|s| - 1]) + (s[|s| - 1] as int - '0' as int)
  }

  /** The last digit, and what stands before it. */
  lemma DecimalLast(n: nat)
    ensures var s := Decimal(n);
      && s[|s| - 1] as int == '0' as int + n % 10 && 0 <= n % 10 <= 9 && n == 10 * (n / 10) + n % 10
      && s[..|s| - 1] == if n < 10 then "" else Decimal(n / 10)
  {
  }

  /** A number's decimal text spells it in digits, without a leading zero. */
  lemma {:induction false} DecimalSpells(n: nat)
    ensures Number(Decimal(n)) == n && forall i :: 0 <= i < |Decimal(n)| ==> '0' <= Decimal(n)[i] <= '9'
    ensures Decimal(n)[0] == '0' ==> n == 0 && |Decimal(n)| == 1
  {
    var s := Decimal(n);
    DecimalLast(n);
    if n >= 10 {
      DecimalSpells(n / 10);
      assert s == Decimal(n / 10) + [s[|s| - 1]];
    }
  }
}
