/** The template builders: an operating-instruction template (Betriebsanweisung)
    and a safety-briefing template (Unterweisung) for one catalogue risk. */
module Muster {
  import opened Wrappers
  import opened Ampel

  /** One catalogue risk. `hazard`, `gesetz` and `ki` are read with `risiko[key]`
      and are always present; `psa` is optional (`None` when the key is absent). */
  datatype Risiko = Risiko(hazard: string, gesetz: string, psa: Option<seq<string>>, ki: string)

  /** `risiko.get("psa", [])`. */
  function PsaOrEmpty(risiko: Risiko): seq<string>
  {
    match risiko.psa
    case Some(p) => p
    case None => []
  }

  /** Python's `sep.join(parts)`. */
  function Join(parts: seq<string>, sep: string): (r: string)
    ensures parts == [] ==> r == ""
    ensures |parts| == 1 ==> r == parts[0]
    ensures |parts| > 0 ==> |parts[0]| <= |r| && r[..|parts[0]|] == parts[0]
  {
    if |parts| == 0 then ""
    else if |parts| == 1 then parts[0]
    else parts[0] + sep + Join(parts[1..], sep)
  }

  /** Joining one more item appends the separator and that item: every item after the
      first follows a separator, in list order. */
  lemma {:induction false} JoinSnoc(parts: seq<string>, sep: string, x: string)
    requires |parts| > 0
    ensures Join(parts + [x], sep) == Join(parts, sep) + sep + x
  {
    if |parts| == 1 {
      assert parts + [x] == [parts[0], x];
      assert (parts + [x])[1..] == [x];
    } else {
      assert (parts + [x])[1..] == parts[1..] + [x];
      JoinSnoc(parts[1..], sep, x);
    }
  }

  /** The content of one step. The fourth step holds Python's string rendering of
      the risk assessment; the model keeps the assessment itself instead of that text. */
  datatype Inhalt = Text(text: string) | AmpelRepr(assessment: Assessment)

  datatype Schritt = Schritt(abschnitt: string, inhalt: Inhalt)

  datatype Betriebsanweisung = Betriebsanweisung(
    titel: string,
    gesetz: string,
    psa: seq<string>,
    risikoampel: Assessment,
    schritte: seq<Schritt>)

  datatype Quizfrage = Quizfrage(frage: string, antwort: string)

  datatype Unterweisung = Unterweisung(thema: string, ziele: string, quiz: seq<Quizfrage>)

  /** The fixed exposure, severity and frequency every template is scored with. */
  const MusterE: int := 2
  const MusterS: int := 3
  const MusterH: int := 1

  /** The section names of the four steps, in order. */
  const Abschnitte: seq<string> := ["Gefahr", "PSA", "Maßnahmen", "Risikoampel"]

  /** `muster_betriebsanweisung(branch, risiko)`. */
  function MusterBetriebsanweisung(branch: string, risiko: Risiko): (r: Betriebsanweisung)
    ensures r.risikoampel.score == 6 && r.risikoampel.ampel == Red
    ensures r.risikoampel.hinweis == HintRed
    ensures r.titel == "BA für " + branch + ": " + risiko.hazard
    ensures r.gesetz == risiko.gesetz
    ensures risiko.psa.Some? ==> r.psa == risiko.psa.value
    ensures risiko.psa.None? ==> r.psa == []
    ensures |r.schritte| == 4
    ensures forall i :: 0 <= i < 4 ==> r.schritte[i].abschnitt == Abschnitte[i]
    ensures r.schritte[0].inhalt == Text(risiko.hazard)
    ensures r.schritte[1].inhalt == Text(Join(r.psa, ", "))
    ensures r.schritte[2].inhalt == Text(risiko.ki)
    ensures r.schritte[3].inhalt == AmpelRepr(r.risikoampel)
  {
    var risk := NohlRisikoampel(MusterE, MusterS, MusterH);
    Betriebsanweisung(
      "BA für " + branch + ": " + risiko.hazard,
      risiko.gesetz,
      PsaOrEmpty(risiko),
      risk,
      [ Schritt("Gefahr", Text(risiko.hazard)),
        Schritt("PSA", Text(Join(PsaOrEmpty(risiko), ", "))),
        Schritt("Maßnahmen", Text(risiko.ki)),
        Schritt("Risikoampel", AmpelRepr(risk)) ])
  }

  /** `muster_unterweisung(branch, risiko)`. It reads `risiko["psa"]` without a
      default, so a risk without protective equipment raises `KeyError('psa')`. */
  function MusterUnterweisung(branch: string, risiko: Risiko): (r: Result<Unterweisung, ApiError>)
    ensures r.Success? <==> risiko.psa.Some?
    ensures r.Failure? ==> r.error == KeyError("psa")
    ensures r.Success? ==> r.value.thema == "Unterweisung " + risiko.hazard
    ensures r.Success? ==> r.value.ziele == "Schutz vor " + risiko.hazard + ", Verständnis: " + risiko.ki
    ensures r.Success? ==> |r.value.quiz| == 2
    ensures r.Success? ==> r.value.quiz[0] == Quizfrage("Wie wird " + risiko.hazard + " vermieden?", risiko.ki)
    ensures r.Success? ==> r.value.quiz[1] == Quizfrage("Passende PSA?", Join(risiko.psa.value, ", "))
  {
    match risiko.psa
    case None => Failure(KeyError("psa"))
    case Some(psa) =>
      Success(Unterweisung(
        "Unterweisung " + risiko.hazard,
        "Schutz vor " + risiko.hazard + ", Verständnis: " + risiko.ki,
        [ Quizfrage("Wie wird " + risiko.hazard + " vermieden?", risiko.ki),
          Quizfrage("Passende PSA?", Join(psa, ", ")) ]))
  }

  /** Both templates agree on the protective equipment whenever the briefing exists:
      the briefing's PSA answer is the joined equipment list of the instruction. */
  lemma TemplatesAgreeOnPsa(branch: string, risiko: Risiko)
    requires MusterUnterweisung(branch, risiko).Success?
    ensures MusterUnterweisung(branch, risiko).value.quiz[1].antwort
         == MusterBetriebsanweisung(branch, risiko).schritte[1].inhalt.text
  {
  }
}
