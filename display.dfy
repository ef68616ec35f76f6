/** What the pages share when they render money: the colour class they choose and
    `Math.abs`. */
module Display {
  /** The Tailwind text colour a value is shown in. */
  datatype Tone = Destructive | Success | Muted

  /** `Math.abs`. */
  function Abs(x: int): (r: nat)
    ensures r == x || r == -x
  {
    if x < 0 then -x else x
  }
}
