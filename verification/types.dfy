/**
 The data model of the LOPDP large-scale calculator: the closed set of scoring
 categories, the rubric option and direct-qualification records, and the
 calculator state record.

 Point values are measured in HALF-POINTS throughout: every value the rubric
 lists is a multiple of 0.5, so `1` here is 0.5 points, `2` is one point and the
 large-scale threshold of 6 points is `12`.
 */
module Types {

  datatype Option<T> = None | Some(value: T)

  /** A point value in half-points (0.5 points per unit). */
  type HalfPoints = int

  /** The six scoring dimensions; no other category exists. */
  datatype Category = Titulares | Volumen | Datos | Frecuencia | Permanencia | Geografia
  {
    /** The position of the category in the rubric's listing order. */
    function Index(): (i: nat)
      ensures i < 6
    {
      match this
      case Titulares => 0
      case Volumen => 1
      case Datos => 2
      case Frecuencia => 3
      case Permanencia => 4
      case Geografia => 5
    }
  }

  /** Every category, in the order the rubric lists them. */
  function AllCategories(): (cs: seq<Category>)
    ensures |cs| == 6
    ensures forall c: Category :: cs[c.Index()] == c
    ensures forall i, j :: 0 <= i < j < |cs| ==> cs[i] != cs[j]
  {
    var cs := [Titulares, Volumen, Datos, Frecuencia, Permanencia, Geografia];
    cs
  }

  /** The string key under which a category is stored in the state record and the rubric table. */
  function CategoryKey(c: Category): (key: string)
    ensures |key| > 0
  {
    match c
    case Titulares => "titulares"
    case Volumen => "volumen"
    case Datos => "datos"
    case Frecuencia => "frecuencia"
    case Permanencia => "permanencia"
    case Geografia => "geografia"
  }

  /** Reads a string key back as a category; any other string is not a category. */
  function CategoryFromKey(key: string): (c: Option<Category>)
    ensures c.Some? ==> CategoryKey(c.value) == key
    ensures c.None? ==> forall d: Category :: CategoryKey(d) != key
  {
    if key == "titulares" then Some(Titulares)
    else if key == "volumen" then Some(Volumen)
    else if key == "datos" then Some(Datos)
    else if key == "frecuencia" then Some(Frecuencia)
    else if key == "permanencia" then Some(Permanencia)
    else if key == "geografia" then Some(Geografia)
    else None
  }

  /** The six keys are exactly the category names, and distinct categories have distinct keys. */
  lemma CategoryKeyRoundTrip(c: Category)
    ensures CategoryFromKey(CategoryKey(c)) == Some(c)
  {
  }

  lemma CategoryKeyInjective(c: Category, d: Category)
    ensures CategoryKey(c) == CategoryKey(d) ==> c == d
  {
    CategoryKeyRoundTrip(c);
    CategoryKeyRoundTrip(d);
  }

  /** One selectable answer of a category: its label (`caption`, since `label` is a Dafny keyword), value and an optional note. */
  datatype ScoringOption = ScoringOption(caption: string, points: HalfPoints, description: Option<string>)

  /** One direct-risk criterion: identifier, label and a mandatory description. */
  datatype DirectCheck = DirectCheck(id: string, caption: string, description: string)

  /**
   The calculator state: exactly one current value per category (0 meaning
   "unanswered") and the set of active direct-risk identifiers. The values are
   plain numbers: nothing in the record confines them to rubric values.
   */
  datatype CalculatorState = CalculatorState(
    titulares: HalfPoints,
    volumen: HalfPoints,
    datos: HalfPoints,
    frecuencia: HalfPoints,
    permanencia: HalfPoints,
    geografia: HalfPoints,
    directQualifications: set<string>)

  /** The value held for category `c` (the record indexed by the category's key). */
  function Points(s: CalculatorState, c: Category): (p: HalfPoints)
  {
    match c
    case Titulares => s.titulares
    case Volumen => s.volumen
    case Datos => s.datos
    case Frecuencia => s.frecuencia
    case Permanencia => s.permanencia
    case Geografia => s.geografia
  }

  /** Two states agree exactly when they agree on every category and on the flag set. */
  lemma StateExtensionality(s: CalculatorState, t: CalculatorState)
    requires forall c: Category :: Points(s, c) == Points(t, c)
    requires s.directQualifications == t.directQualifications
    ensures s == t
  {
    assert Points(s, Titulares) == Points(t, Titulares);
    assert Points(s, Volumen) == Points(t, Volumen);
    assert Points(s, Datos) == Points(t, Datos);
    assert Points(s, Frecuencia) == Points(t, Frecuencia);
    assert Points(s, Permanencia) == Points(t, Permanencia);
    assert Points(s, Geografia) == Points(t, Geografia);
  }
}
