/**
 The two static tables of the calculator: the scoring rubric (category key to
 an ordered list of options) and the list of direct-risk criteria. Points are
 in half-points (see module Types).
 */
module Constants {
  import opened Types

  const TitularesOptions: seq<ScoringOption> := [
    ScoringOption("Hasta 1.000", 2, None),
    ScoringOption("De 1.001 a 10.000", 4, None),
    ScoringOption("De 10.001 a 100.000", 6, None),
    ScoringOption("Desde 100.001", 8, None)]

  const VolumenOptions: seq<ScoringOption> := [
    ScoringOption("Hasta 10 tipos de datos", 1, None),
    ScoringOption("Entre 11 y 30 tipos", 2, None),
    ScoringOption("Entre 31 y 100 tipos", 4, None),
    ScoringOption("Desde 101 tipos de datos", 6, None)]

  const DatosOptions: seq<ScoringOption> := [
    ScoringOption("Únicamente categorías básicas", 1, None),
    ScoringOption("Una categoría especial", 4, Some("Salud, biometría, menores, etc.")),
    ScoringOption("Más de una categoría especial", 6, Some("Datos penales, vulnerables, etc."))]

  const FrecuenciaOptions: seq<ScoringOption> := [
    ScoringOption("Puntual", 1, None),
    ScoringOption("Periódica", 2, None),
    ScoringOption("Continua o en tiempo real", 4, None)]

  const PermanenciaOptions: seq<ScoringOption> := [
    ScoringOption("Ocasional", 1, None),
    ScoringOption("Temporal", 2, None),
    ScoringOption("Prolongada", 4, None)]

  const GeografiaOptions: seq<ScoringOption> := [
    ScoringOption("Local", 2, Some("Provincial o Cantonal")),
    ScoringOption("Nacional", 4, Some("Varias provincias o todo el país")),
    ScoringOption("Global o transfronteriza", 6, Some("Tratamiento fuera del territorio"))]

  /** The rubric table, keyed by category key as the interface enumerates it. */
  const ScoringRules: map<string, seq<ScoringOption>> := map[
    "titulares" := TitularesOptions,
    "volumen" := VolumenOptions,
    "datos" := DatosOptions,
    "frecuencia" := FrecuenciaOptions,
    "permanencia" := PermanenciaOptions,
    "geografia" := GeografiaOptions]

  /** Option values rise strictly along the list. */
  predicate StrictlyIncreasing(opts: seq<ScoringOption>)
  {
    forall i, j :: 0 <= i < j < |opts| ==> opts[i].points < opts[j].points
  }

  /**
   The options of one category, in listed order: three or four of them, each
   worth a positive amount, lowest value first.
   */
  function OptionsFor(c: Category): (opts: seq<ScoringOption>)
    ensures 3 <= |opts| <= 4
    ensures StrictlyIncreasing(opts)
    ensures forall i :: 0 <= i < |opts| ==> opts[i].points > 0
  {
    match c
    case Titulares => TitularesOptions
    case Volumen => VolumenOptions
    case Datos => DatosOptions
    case Frecuencia => FrecuenciaOptions
    case Permanencia => PermanenciaOptions
    case Geografia => GeografiaOptions
  }

  /** The table has exactly the six category keys, each holding that category's options. */
  lemma ScoringRulesKeys()
    ensures forall c: Category :: CategoryKey(c) in ScoringRules && ScoringRules[CategoryKey(c)] == OptionsFor(c)
    ensures forall key :: key in ScoringRules ==> CategoryFromKey(key).Some?
  {
  }

  /** The values a category offers. */
  function ListedPoints(c: Category): (ps: set<HalfPoints>)
    ensures 0 !in ps
    ensures forall i :: 0 <= i < |OptionsFor(c)| ==> OptionsFor(c)[i].points in ps
    ensures forall p :: p in ps ==> exists i :: 0 <= i < |OptionsFor(c)| && OptionsFor(c)[i].points == p
  {
    set i | 0 <= i < |OptionsFor(c)| :: OptionsFor(c)[i].points
  }

  /** The value of the first (lowest) option of a category. */
  function MinPoints(c: Category): (p: HalfPoints)
  {
    OptionsFor(c)[0].points
  }

  /** The value of the last (highest) option of a category. */
  function MaxPoints(c: Category): (p: HalfPoints)
  {
    var opts := OptionsFor(c);
    opts[|opts| - 1].points
  }

  /** Every listed value lies between the category's first and last option. */
  lemma ListedPointsBounds(c: Category, p: HalfPoints)
    requires p in ListedPoints(c)
    ensures 0 < MinPoints(c) <= p <= MaxPoints(c)
  {
    var opts := OptionsFor(c);
    var i :| 0 <= i < |opts| && opts[i].points == p;
    assert i == 0 || opts[0].points < opts[i].points;
    assert i == |opts| - 1 || opts[i].points < opts[|opts| - 1].points;
  }

  /** Distinct options of a category carry distinct values, so a value identifies at most one option. */
  lemma ListedPointsIdentifyOption(c: Category, i: nat, j: nat)
    requires i < |OptionsFor(c)| && j < |OptionsFor(c)|
    ensures OptionsFor(c)[i].points == OptionsFor(c)[j].points ==> i == j
  {
  }

  /** The direct-risk criteria, in listed order. */
  const DirectQualifications: seq<DirectCheck> := [
    DirectCheck("health", "Salud / Asistencial",
      "Tratamientos en marcos sanitarios, seguros médicos o gestión de historiales clínicos."),
    DirectCheck("profiling", "Perfilamiento Automatizado",
      "Evaluación sistemática de aspectos personales con efectos jurídicos o impacto significativo."),
    DirectCheck("surveillance", "Videovigilancia Pública",
      "Observación o monitoreo sistemático en zonas de acceso público."),
    DirectCheck("biometrics", "Biometría / Geolocalización",
      "Cualquier tratamiento de datos biométricos o geolocalización constante."),
    DirectCheck("credit", "Información Crediticia",
      "Tratamiento estructural para valorar solvencia patrimonial o riesgo económico."),
    DirectCheck("children", "Menores de Edad",
      "Tratamiento sistemático de datos de niñas, niños o adolescentes."),
    DirectCheck("transfers", "Transferencias Sistemáticas",
      "Flujos continuos o estructurales de información entre responsables/encargados."),
    DirectCheck("courier", "Mensajería / Courier",
      "Servicios de mensajería acelerada, expresa o de paquetería.")]

  /** Exactly eight criteria, no two sharing an identifier. */
  lemma DirectQualificationsDistinct()
    ensures |DirectQualifications| == 8
    ensures forall i, j :: 0 <= i < j < |DirectQualifications| ==> DirectQualifications[i].id != DirectQualifications[j].id
  {
  }

  /** The identifiers carried by a list of criteria. */
  function IdsOf(qs: seq<DirectCheck>): set<string>
  {
    set i | 0 <= i < |qs| :: qs[i].id
  }

  /** The identifiers the interface can toggle. */
  function DirectIds(): (ids: set<string>)
    ensures forall i :: 0 <= i < |DirectQualifications| ==> DirectQualifications[i].id in ids
    ensures forall id :: id in ids ==> exists i :: 0 <= i < |DirectQualifications| && DirectQualifications[i].id == id
  {
    IdsOf(DirectQualifications)
  }

  /** The identifiers of the criteria, in listed order. */
  lemma DirectQualificationIds()
    ensures DirectQualifications[0].id == "health" && DirectQualifications[1].id == "profiling"
    ensures DirectQualifications[2].id == "surveillance" && DirectQualifications[3].id == "biometrics"
    ensures DirectQualifications[4].id == "credit" && DirectQualifications[5].id == "children"
    ensures DirectQualifications[6].id == "transfers" && DirectQualifications[7].id == "courier"
  {
  }

  /** The toggleable identifiers are exactly these eight. */
  lemma DirectIdsAreTheEight()
    ensures DirectIds() == {"health", "profiling", "surveillance", "biometrics", "credit", "children", "transfers", "courier"}
  {
    var qs := DirectQualifications;
    DirectQualificationIds();
    assert DirectIds() == {qs[0].id, qs[1].id, qs[2].id, qs[3].id, qs[4].id, qs[5].id, qs[6].id, qs[7].id} by {
      forall x | x in DirectIds() ensures x in {qs[0].id, qs[1].id, qs[2].id, qs[3].id, qs[4].id, qs[5].id, qs[6].id, qs[7].id} {
        var i :| 0 <= i < |qs| && qs[i].id == x;
      }
    }
  }

  /** The set of identifiers of a list whose identifiers are distinct has one member per entry. */
  lemma {:induction false} IdSetSize(qs: seq<DirectCheck>)
    requires forall i, j :: 0 <= i < j < |qs| ==> qs[i].id != qs[j].id
    ensures |IdsOf(qs)| == |qs|
  {
    if |qs| > 0 {
      var init := qs[..|qs| - 1];
      IdSetSize(init);
      var last := qs[|qs| - 1].id;
      assert IdsOf(qs) == IdsOf(init) + {last} by {
        forall x | x in IdsOf(qs) ensures x in IdsOf(init) + {last} {
          var i :| 0 <= i < |qs| && qs[i].id == x;
          if i < |init| {
            assert init[i] == qs[i];
          }
        }
      }
      assert last !in IdsOf(init);
    }
  }

  /** There are exactly eight toggleable identifiers. */
  lemma DirectIdsCount()
    ensures |DirectIds()| == 8
  {
    DirectQualificationsDistinct();
    IdSetSize(DirectQualifications);
  }

  /** The first criterion with identifier `id`, as the report looks labels up. */
  function FindQualification(qs: seq<DirectCheck>, id: string): (r: Option<DirectCheck>)
    ensures r.Some? ==> r.value in qs && r.value.id == id
    ensures r.None? ==> forall i :: 0 <= i < |qs| ==> qs[i].id != id
  {
    if |qs| == 0 then None
    else if qs[0].id == id then Some(qs[0])
    else FindQualification(qs[1..], id)
  }

  /** The entry found is the first one carrying `id`: no earlier entry carries it. */
  lemma {:induction false} FindQualificationFirst(qs: seq<DirectCheck>, id: string)
    ensures FindQualification(qs, id).Some? ==>
      exists k :: 0 <= k < |qs| && qs[k] == FindQualification(qs, id).value && forall j :: 0 <= j < k ==> qs[j].id != id
  {
    if |qs| > 0 && qs[0].id != id && FindQualification(qs, id).Some? {
      FindQualificationFirst(qs[1..], id);
      var k :| 0 <= k < |qs[1..]| && qs[1..][k] == FindQualification(qs[1..], id).value
        && forall j :: 0 <= j < k ==> qs[1..][j].id != id;
      assert qs[k + 1] == FindQualification(qs, id).value;
      forall j | 0 <= j < k + 1 ensures qs[j].id != id {
        if j > 0 {
          assert qs[j] == qs[1..][j - 1];
        }
      }
    }
  }

  /** With distinct identifiers, the lookup finds exactly the entry carrying the identifier. */
  lemma {:induction false} FindQualificationUnique(qs: seq<DirectCheck>, k: nat)
    requires k < |qs|
    requires forall i, j :: 0 <= i < j < |qs| ==> qs[i].id != qs[j].id
    ensures FindQualification(qs, qs[k].id) == Some(qs[k])
  {
    if k > 0 {
      assert qs[0].id != qs[k].id;
      FindQualificationUnique(qs[1..], k - 1);
    }
  }

  /** Every listed criterion is found by its own identifier, and nothing else is found. */
  lemma FindDirectQualification(id: string)
    ensures id in DirectIds() ==> exists i :: 0 <= i < |DirectQualifications| && FindQualification(DirectQualifications, id) == Some(DirectQualifications[i])
    ensures id !in DirectIds() ==> FindQualification(DirectQualifications, id) == None
  {
    if id in DirectIds() {
      var k :| 0 <= k < |DirectQualifications| && DirectQualifications[k].id == id;
      DirectQualificationsDistinct();
      FindQualificationUnique(DirectQualifications, k);
    }
  }
}
