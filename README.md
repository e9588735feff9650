# Safety-management backend: risk traffic light and checklist builders

This project models the computational core of the workplace-safety backend in
`main.py`:

- the Nohl risk traffic light (`nohl_risikoampel`): the risk score E·S·H (H
  defaults to 1) and its classification into ROT (score ≥ 5), GELB (3 ≤ score < 5)
  and GRUEN (score < 3), each with its fixed hint text;
- the template builders for an operating instruction (`muster_betriebsanweisung`,
  always scored with E=2, S=3, H=1 and carrying four steps in a fixed order) and a
  safety briefing (`muster_unterweisung`, a two-question quiz);
- the branch checklist (`get_branch_checklist`): a not-found error (HTTP 404) for
  a branch outside the catalogue, otherwise one suggestion entry per catalogue
  risk, built in a loop, in the catalogue's order;
- the construction-site checklist (`checkliste_baustelle`): the region's extra
  tips followed by one fixed tip.

The catalogue (`BRANCHEN_KATALOG`), the standards map (`NORMEN_MAP`) and the
regional extras (`BUNDESLAND_EXTRA`) are parameters of the operations; the
shipped tables are also defined as constants, with lemmas about them.

Modules: `Wrappers` (Option, Result, the two error kinds), `Ampel`, `Muster`,
`Branchen`, `Baustelle`. The pure builders are functions; `get_branch_checklist`,
which appends to a local list in a `for` loop, is a method whose loop invariant
relates the list built so far to the processed prefix of the risks.

Python integers are unbounded, so the score is an unbounded `int` here as well.

`muster_unterweisung` reads `risiko["psa"]` without a default while the other two
places use `risiko.get("psa", [])`. The model keeps this: a risk's `psa` is
optional, the briefing template fails with `KeyError('psa')` when it is absent,
and the branch checklist propagates that failure (the web framework answers it with
an internal error). Every risk in the shipped catalogue names its equipment, so with
the shipped tables only the 404 case can occur (`ShippedCatalogueIsComplete`).

## Model

| member | source | states |
|---|---|---|
| `Ampel.NohlRisikoampel` | main.py:23-27 | the score is E·S·H; the colour is ROT exactly when the score is at least 5, GELB exactly when it is 3 or 4, GRUEN exactly when it is below 3 (zero and negative products included), so every integer gets exactly one colour; the hint is the colour's fixed text; H is a parameter with default value 1, as in the source |
| `Ampel.AmpelMonotoneInScore` | main.py:25-27 | a higher (or equal) score never yields a less severe colour (GRUEN < GELB < ROT) |
| `Ampel.AmpelMonotoneInFactors` | main.py:23-31 | for non-negative factors (the documented range is 1-4), raising E, S or H never lowers the colour |
| `Ampel.NegativeFactorsBreakFactorMonotonicity` | main.py:23-27 | the factors are not range-checked: with negative factors, raising E from -1 to 0 (S = -5) turns ROT into GRUEN |
| `Muster.Join` | main.py:68 | `', '.join`: the empty list joins to the empty string, a single item to itself, and the result starts with the first item |
| `Muster.JoinSnoc` | main.py:68 | joining one more item appends the separator and that item, so every item after the first follows a separator, in list order |
| `Muster.MusterBetriebsanweisung` | main.py:58-72 | the instruction is always scored 6 and ROT with the red hint; its title names branch and hazard; `gesetz` is the risk's; `psa` is the risk's equipment or empty when it has none; exactly four steps in the order Gefahr, PSA, Maßnahmen, Risikoampel, holding the hazard, the joined equipment, the measures and the assessment |
| `Muster.MusterUnterweisung` | main.py:74-82 | succeeds exactly when the risk names its equipment, else fails with `KeyError('psa')`; on success the topic and goals name the hazard and measures and the quiz has exactly two questions, answered by the measures and by the joined equipment |
| `Muster.TemplatesAgreeOnPsa` | main.py:58-82 | whenever the briefing exists, its equipment answer equals the instruction's PSA step |
| `Branchen.GetBranchChecklist` | main.py:84-107 | fails with 404 "Branche nicht vorhanden" exactly when the branch is not a catalogue key; fails with `KeyError('psa')` exactly when the branch is known and one of its risks lacks equipment; otherwise returns the branch, its activities, `NORMEN_MAP.get(branch, [])`, and one entry per risk in the same order, each copying the risk's hazard, law, equipment and measures, carrying the branch's standards and embedding both templates built from that risk |
| `Branchen.ShippedCatalogueIsComplete` | main.py:35-55 | the shipped catalogue and standards map have the same keys, Bau and Elektro; every shipped risk names its equipment; each branch has two risks |
| `Baustelle.ChecklisteBaustelle` | main.py:118-127 | echoes trade and state; lists the six fixed standards and the fixed checklist; the tips are the state's extras (empty for an unknown state), in order, followed by exactly one fixed tip, so there is one tip more than extras and the last is the fixed tip |
| `Baustelle.TipsAreExtrasThenFixed` | main.py:120 | a text is among the tips exactly when it is one of the state's extras or the fixed tip |
| `Baustelle.ShippedRegionalTips` | main.py:114-120 | with the shipped extras NRW gets three tips, BY two, every other state only the fixed tip |

## Left out

- The encryption, audit-trail, template-registry and document-extraction subsystems: they do not occur in `main.py`; the code that would implement them is not part of this model.
- The HTTP route decorators and the endpoints that only delegate (`api_nohl`, `elektro_risikoampel`, `elektro_checkliste`, `get_vdi_checklisten`): web-framework plumbing with no logic beyond the modelled calls.
- `import_external_file`: file-system writes, an asynchronous upload and random `uuid4` file names.
- `external_webhook`: it only echoes its input.
- The directory creation at import time and the server start-up: process I/O.
- Python's `str()` rendering of the assessment in the fourth instruction step: the model keeps the assessment itself (`Inhalt.AmpelRepr`) instead of its text.
- The German hint and label texts are constants; nothing is stated about their wording.
- Missing `hazard`, `gesetz` or `ki` keys in a catalogue risk, and missing `Risiken` or `Tätigkeiten` keys in a catalogue entry: the source reads them with `[key]` and would raise `KeyError`; the model's `Risiko` and `BranchEntry` always carry them. Only the optional `psa` key is modelled as possibly absent.
