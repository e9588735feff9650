/** The construction-site checklist with its region-specific tips. */
module Baustelle {

  /** One fixed checklist question. */
  datatype ChecklistenPunkt = ChecklistenPunkt(nr: string, frage: string, gesetz: string, kiHelp: string)

  /** The shipped `BAUSTELLEN_CHECKLISTE`. */
  const BaustellenCheckliste: seq<ChecklistenPunkt> := [
    ChecklistenPunkt("BS01", "Ist der aktuelle SiGe-Plan vor Ort und allen bekannt?",
                     "BaustellenVO, DGUV", "KI prüft Upload/Gültigkeit, erinnert bei Änderungen.")
  ]

  /** The shipped `BUNDESLAND_EXTRA`: extra tips per federal state. */
  const BundeslandExtra: map<string, seq<string>> := map[
    "NRW" := ["BG Bau-Meldung ab 500qm", "Altbauten-Zugang extra prüfen"],
    "BY" := ["Brandschutz Baurecht beachten"]
  ]

  /** The tip appended for every region. */
  const FixedTip: string := "KI prüft Gewerke-GBU und alle Unterlagen automatisch."

  /** The standards listed on every construction-site checklist. */
  const BaustellenNormen: seq<string> :=
    ["ISO 45001", "ISO 14001", "ISO 50001", "BaustellenVO", "DGUV", "LandesbauO"]

  datatype BaustellenAntwort = BaustellenAntwort(
    gewerk: string,
    bundesland: string,
    normen: seq<string>,
    checklistenpunkte: seq<ChecklistenPunkt>,
    kiTipps: seq<string>)

  /** `BUNDESLAND_EXTRA.get(bundesland, [])`. */
  function ExtrasFor(extras: map<string, seq<string>>, bundesland: string): seq<string>
  {
    if bundesland in extras then extras[bundesland] else []
  }

  /** `checkliste_baustelle(gewerk, bundesland)`, over a given map of regional extras:
      the tips are the region's extras, in order, followed by exactly one fixed tip. */
  function ChecklisteBaustelle(extras: map<string, seq<string>>, gewerk: string, bundesland: string)
    : (r: BaustellenAntwort)
    ensures r.gewerk == gewerk && r.bundesland == bundesland
    ensures r.normen == BaustellenNormen
    ensures r.checklistenpunkte == BaustellenCheckliste
    ensures |r.kiTipps| == |ExtrasFor(extras, bundesland)| + 1
    ensures r.kiTipps[..|r.kiTipps| - 1] == ExtrasFor(extras, bundesland)
    ensures r.kiTipps[|r.kiTipps| - 1] == FixedTip
    ensures bundesland !in extras ==> r.kiTipps == [FixedTip]
  {
    var kiTipps := ExtrasFor(extras, bundesland) + [FixedTip];
    BaustellenAntwort(gewerk, bundesland, BaustellenNormen, BaustellenCheckliste, kiTipps)
  }

  /** A text is among the tips exactly when it is one of the region's extras
      or the fixed tip. */
  lemma TipsAreExtrasThenFixed(extras: map<string, seq<string>>, gewerk: string, bundesland: string, t: string)
    ensures t in ChecklisteBaustelle(extras, gewerk, bundesland).kiTipps
        <==> t in ExtrasFor(extras, bundesland) || t == FixedTip
  {
  }

  /** With the shipped extras: NRW gets three tips, BY two, any other state only the fixed one. */
  lemma ShippedRegionalTips(gewerk: string, bundesland: string)
    ensures |ChecklisteBaustelle(BundeslandExtra, gewerk, "NRW").kiTipps| == 3
    ensures |ChecklisteBaustelle(BundeslandExtra, gewerk, "BY").kiTipps| == 2
    ensures bundesland != "NRW" && bundesland != "BY" ==>
              ChecklisteBaustelle(BundeslandExtra, gewerk, bundesland).kiTipps == [FixedTip]
  {
  }
}
