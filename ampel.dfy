/** The Nohl risk traffic light: a risk score E*S*H classified into three colours. */
module Ampel {

  /** The string enum `RiskColor`: "ROT", "GELB", "GRUEN". */
  datatype RiskColor = Red | Yellow | Green

  const HintRed: string := "Hohes Risiko: Sofort handeln!"
  const HintYellow: string := "Mittleres Risiko: Maßnahmen zeitnah umsetzen."
  const HintGreen: string := "Akzeptabel, weiter überwachen."

  /** Score at or above which a risk is red. */
  const RedThreshold: int := 5
  /** Score at or above which a risk is at least yellow. */
  const YellowThreshold: int := 3

  /** The dictionary `{"score", "ampel", "hinweis"}` returned by the classifier. */
  datatype Assessment = Assessment(score: int, ampel: RiskColor, hinweis: string)

  /** The fixed hint text that goes with each colour. */
  function Hint(c: RiskColor): string {
    match c
    case Red => HintRed
    case Yellow => HintYellow
    case Green => HintGreen
  }

  /** How severe a colour is: GRUEN < GELB < ROT. */
  function Severity(c: RiskColor): nat {
    match c
    case Green => 0
    case Yellow => 1
    case Red => 2
  }

  /** `nohl_risikoampel(E, S, H=1)`: the product E*S*H (Python integers, so no overflow)
      and its colour by the two thresholds, with the colour's hint. */
  function NohlRisikoampel(e: int, s: int, h: int := 1): (r: Assessment)
    ensures r.score == e * s * h
    ensures r.ampel == Red <==> RedThreshold <= r.score
    ensures r.ampel == Yellow <==> YellowThreshold <= r.score < RedThreshold
    ensures r.ampel == Green <==> r.score < YellowThreshold
    ensures r.hinweis == Hint(r.ampel)
  {
    var risiko := e * s * h;
    if risiko >= 5 then Assessment(risiko, Red, HintRed)
    else if risiko >= 3 then Assessment(risiko, Yellow, HintYellow)
    else Assessment(risiko, Green, HintGreen)
  }

  /** The classification only depends on the score, and a higher score never
      gets a less severe colour. */
  lemma AmpelMonotoneInScore(e: int, s: int, h: int, e': int, s': int, h': int)
    requires e * s * h <= e' * s' * h'
    ensures Severity(NohlRisikoampel(e, s, h).ampel) <= Severity(NohlRisikoampel(e', s', h').ampel)
  {
  }

  /** For the documented factor range (non-negative E, S, H), raising any factor
      never lowers the colour. */
  lemma AmpelMonotoneInFactors(e: int, s: int, h: int, e': int, s': int, h': int)
    requires 0 <= e <= e' && 0 <= s <= s' && 0 <= h <= h'
    ensures Severity(NohlRisikoampel(e, s, h).ampel) <= Severity(NohlRisikoampel(e', s', h').ampel)
  {
  }

  /** With negative factors the colour is not monotone in a factor: (-1)*(-5)*1 is red,
      raising E to 0 gives green. */
  lemma NegativeFactorsBreakFactorMonotonicity()
    ensures NohlRisikoampel(-1, -5, 1).ampel == Red
    ensures NohlRisikoampel(0, -5, 1).ampel == Green
  {
  }
}
