/** The branch catalogue and the checklist the service assembles for one branch. */
module Branchen {
  import opened Wrappers
  import opened Muster

  /** One catalogue entry: its activities (`Tätigkeiten`) and its risks (`Risiken`). */
  datatype BranchEntry = BranchEntry(taetigkeiten: seq<string>, risiken: seq<Risiko>)

  type Katalog = map<string, BranchEntry>

  /** Standards and regulations per branch. */
  type NormenMap = map<string, seq<string>>

  /** The shipped `BRANCHEN_KATALOG`. */
  const BranchenKatalog: Katalog := map[
    "Bau" := BranchEntry(
      ["Gerüstbau", "Hochbau", "Abbruch"],
      [ Risiko("Absturz", "DGUV, BetrSichV", Some(["Auffanggurt", "Helm"]),
               "Gerüstkontrolle, Absturzsicherung"),
        Risiko("Staub/Asbest", "GefStoffV, TRGS 519", Some(["FFP3"]),
               "Staubarme Verfahren, Schutzkleidung") ]),
    "Elektro" := BranchEntry(
      ["Installation", "Wartung", "Prüfung"],
      [ Risiko("Elektrischer Schlag", "DGUV V3, VDE 0105-100",
               Some(["Isolierhandschuhe", "Arc-Flash-Schutz"]),
               "5 Sicherheitsregeln, nur Elektrofachkräfte"),
        Risiko("Lichtbogen", "DGUV 203-077", Some(["Schutzhelm mit Visier"]),
               "Arbeiten freischalten, PSA, Distanz") ])
  ]

  /** The shipped `NORMEN_MAP`. */
  const NormenMapShipped: NormenMap := map[
    "Bau" := ["ISO 45001", "ISO 14001", "BaustellenVO", "DGUV 38", "Landesbauordnung"],
    "Elektro" := ["DGUV V3", "VDE 0105-100", "TRBS 2131", "ISO 50001", "VDI 2050", "ISO 45001"]
  ]

  /** The error raised for a branch the catalogue does not know. */
  const BranchNotFound: ApiError := HttpException(404, "Branche nicht vorhanden")

  /** `NORMEN_MAP.get(branch, [])`. */
  function NormenFor(normen: NormenMap, branch: string): seq<string>
  {
    if branch in normen then normen[branch] else []
  }

  /** One suggestion entry of the checklist. */
  datatype Punkt = Punkt(
    risiko: string,
    gesetz: string,
    psa: seq<string>,
    kiRisikoeinschaetzung: string,
    normen: seq<string>,
    betriebsanweisungMuster: Betriebsanweisung,
    unterweisungMuster: Unterweisung)

  /** The checklist returned for a known branch. */
  datatype Checkliste = Checkliste(
    branche: string,
    taetigkeiten: seq<string>,
    normenUndGesetze: seq<string>,
    punkte: seq<Punkt>)

  /** Every risk names its protective equipment. */
  predicate AllHavePsa(risiken: seq<Risiko>) {
    forall k :: 0 <= k < |risiken| ==> risiken[k].psa.Some?
  }

  /** `p` is the suggestion entry built from `risiko` for `branch`: it copies the
      risk's fields, carries the branch's standards and embeds both templates. */
  predicate PunktFrom(p: Punkt, branch: string, risiko: Risiko, normen: NormenMap) {
    && p.risiko == risiko.hazard
    && p.gesetz == risiko.gesetz
    && p.psa == PsaOrEmpty(risiko)
    && p.kiRisikoeinschaetzung == risiko.ki
    && p.normen == NormenFor(normen, branch)
    && p.betriebsanweisungMuster == MusterBetriebsanweisung(branch, risiko)
    && MusterUnterweisung(branch, risiko) == Success(p.unterweisungMuster)
  }

  /** `get_branch_checklist(branch)`, over a given catalogue and standards map.
      An unknown branch fails with 404; a risk without `psa` makes the briefing
      template raise `KeyError('psa')`; otherwise there is one entry per risk,
      in the catalogue's order. */
  method GetBranchChecklist(katalog: Katalog, normen: NormenMap, branch: string)
    returns (r: Result<Checkliste, ApiError>)
    ensures r == Failure(BranchNotFound) <==> branch !in katalog
    ensures r == Failure(KeyError("psa")) <==>
              branch in katalog && !AllHavePsa(katalog[branch].risiken)
    ensures r.Success? <==> branch in katalog && AllHavePsa(katalog[branch].risiken)
    ensures r.Success? ==>
              && r.value.branche == branch
              && r.value.taetigkeiten == katalog[branch].taetigkeiten
              && r.value.normenUndGesetze == NormenFor(normen, branch)
              && |r.value.punkte| == |katalog[branch].risiken|
              && forall i :: 0 <= i < |r.value.punkte| ==>
                   PunktFrom(r.value.punkte[i], branch, katalog[branch].risiken[i], normen)
  {
    if branch !in katalog {
      return Failure(BranchNotFound);
    }
    var entry := katalog[branch];
    var vorschlag: seq<Punkt> := [];
    for i := 0 to |entry.risiken|
      invariant |vorschlag| == i
      invariant AllHavePsa(entry.risiken[..i])
      invariant forall k :: 0 <= k < i ==> PunktFrom(vorschlag[k], branch, entry.risiken[k], normen)
    {
      var risiko := entry.risiken[i];
      var betriebsanweisung := MusterBetriebsanweisung(branch, risiko);
      var unterweisung := MusterUnterweisung(branch, risiko);
      if unterweisung.Failure? {
        return Failure(unterweisung.error);
      }
      vorschlag := vorschlag + [Punkt(
        risiko.hazard,
        risiko.gesetz,
        PsaOrEmpty(risiko),
        risiko.ki,
        NormenFor(normen, branch),
        betriebsanweisung,
        unterweisung.value)];
    }
    assert entry.risiken[..|entry.risiken|] == entry.risiken;
    r := Success(Checkliste(branch, entry.taetigkeiten, NormenFor(normen, branch), vorschlag));
  }

  /** In the shipped catalogue every risk names its protective equipment and every
      branch has its standards, so a checklist request fails only for an unknown
      branch, and each known branch yields two entries. */
  lemma ShippedCatalogueIsComplete()
    ensures BranchenKatalog.Keys == NormenMapShipped.Keys == {"Bau", "Elektro"}
    ensures forall b :: b in BranchenKatalog ==> AllHavePsa(BranchenKatalog[b].risiken)
    ensures forall b :: b in BranchenKatalog ==> |BranchenKatalog[b].risiken| == 2
  {
  }
}
