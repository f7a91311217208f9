/**
 The evaluator of the calculator component: the initial state, the three
 state transitions (select a category's value, toggle a direct-risk flag,
 reset), the point total and the large-scale verdict, and the category titles.

 All values are half-points, so the threshold of 6 points is 12.
 */
module App {
  import opened Types
  import opened Constants

  /** Six points, in half-points. */
  const LargeScaleThreshold: HalfPoints := 12

  /** The state a session starts from and a reset returns to. */
  const InitialState: CalculatorState := CalculatorState(0, 0, 0, 0, 0, 0, {})

  // ---------------------------------------------------------------------------
  // Evaluation

  /** The total score: the six category values added up. */
  function TotalPoints(s: CalculatorState): (total: HalfPoints)
  {
    s.titulares + s.volumen + s.datos + s.frecuencia + s.permanencia + s.geografia
  }

  /** Reference definition of a total: the values of the listed categories, added one by one. */
  function SumOver(s: CalculatorState, cs: seq<Category>): (sum: HalfPoints)
  {
    if |cs| == 0 then 0 else Points(s, cs[0]) + SumOver(s, cs[1..])
  }

  /** The total is the sum of the values of all six categories. */
  lemma TotalIsSumOverCategories(s: CalculatorState)
    ensures TotalPoints(s) == SumOver(s, AllCategories())
  {
    var cs := AllCategories();
    assert SumOver(s, cs[6..]) == 0;
    assert SumOver(s, cs[5..]) == s.geografia by { assert cs[5..][1..] == cs[6..]; }
    assert SumOver(s, cs[4..]) == s.permanencia + s.geografia by { assert cs[4..][1..] == cs[5..]; }
    assert SumOver(s, cs[3..]) == s.frecuencia + s.permanencia + s.geografia by { assert cs[3..][1..] == cs[4..]; }
    assert SumOver(s, cs[2..]) == s.datos + s.frecuencia + s.permanencia + s.geografia by { assert cs[2..][1..] == cs[3..]; }
    assert SumOver(s, cs[1..]) == TotalPoints(s) - s.titulares by { assert cs[1..][1..] == cs[2..]; }
    assert cs[0..] == cs;
  }

  predicate IsLargeScaleByPoints(s: CalculatorState)
  {
    TotalPoints(s) >= LargeScaleThreshold
  }

  predicate IsLargeScaleByDirect(s: CalculatorState)
  {
    |s.directQualifications| > 0
  }

  /** The verdict: large scale on either path, low impact otherwise. */
  predicate IsLargeScale(s: CalculatorState)
  {
    IsLargeScaleByPoints(s) || IsLargeScaleByDirect(s)
  }

  /**
   The verdict is "large scale" exactly when the total reaches six points or at
   least one direct-risk flag is active; a total of exactly six points counts.
   */
  lemma VerdictRule(s: CalculatorState)
    ensures IsLargeScale(s) <==> (TotalPoints(s) >= 12 || exists id :: id in s.directQualifications)
    ensures TotalPoints(s) == 12 ==> IsLargeScale(s)
    ensures TotalPoints(s) < 12 && s.directQualifications == {} ==> !IsLargeScale(s)
  {
    if s.directQualifications != {} {
      var id :| id in s.directQualifications;
    }
  }

  // ---------------------------------------------------------------------------
  // Transitions

  /** The state with category `c` holding `p`: the previous value is replaced, not added to. */
  function WithPoints(s: CalculatorState, c: Category, p: HalfPoints): (r: CalculatorState)
    ensures Points(r, c) == p
    ensures forall d: Category :: d != c ==> Points(r, d) == Points(s, d)
    ensures r.directQualifications == s.directQualifications
  {
    match c
    case Titulares => s.(titulares := p)
    case Volumen => s.(volumen := p)
    case Datos => s.(datos := p)
    case Frecuencia => s.(frecuencia := p)
    case Permanencia => s.(permanencia := p)
    case Geografia => s.(geografia := p)
  }

  /** Setting a value changes the total by the difference between the new and the old value. */
  lemma TotalAfterWithPoints(s: CalculatorState, c: Category, p: HalfPoints)
    ensures TotalPoints(WithPoints(s, c, p)) == TotalPoints(s) - Points(s, c) + p
  {
  }

  /** Setting the same value twice is the same as setting it once; the later of two settings wins. */
  lemma WithPointsLastWins(s: CalculatorState, c: Category, p: HalfPoints, q: HalfPoints)
    ensures WithPoints(WithPoints(s, c, p), c, q) == WithPoints(s, c, q)
    ensures WithPoints(WithPoints(s, c, p), c, p) == WithPoints(s, c, p)
  {
    StateExtensionality(WithPoints(WithPoints(s, c, p), c, q), WithPoints(s, c, q));
  }

  /** Settings of two different categories do not interfere. */
  lemma WithPointsCommute(s: CalculatorState, c: Category, p: HalfPoints, d: Category, q: HalfPoints)
    requires c != d
    ensures WithPoints(WithPoints(s, c, p), d, q) == WithPoints(WithPoints(s, d, q), c, p)
  {
    StateExtensionality(WithPoints(WithPoints(s, c, p), d, q), WithPoints(WithPoints(s, d, q), c, p));
  }

  /** The flag set with the membership of `id` flipped and every other identifier kept. */
  function Toggle(flags: set<string>, id: string): (r: set<string>)
    ensures id in r <==> id !in flags
    ensures forall x :: x != id ==> (x in r <==> x in flags)
  {
    if id in flags then flags - {id} else flags + {id}
  }

  /** Toggling the same identifier twice restores the flag set. */
  lemma ToggleInvolutive(flags: set<string>, id: string)
    ensures Toggle(Toggle(flags, id), id) == flags
  {
  }

  /** Toggling changes the size of the set by exactly one. */
  lemma ToggleSize(flags: set<string>, id: string)
    ensures id in flags ==> |Toggle(flags, id)| == |flags| - 1
    ensures id !in flags ==> |Toggle(flags, id)| == |flags| + 1
  {
  }

  /** A user action on the calculator: pick an option's value, click a risk card, or reset. */
  datatype Event = Select(category: Category, points: HalfPoints) | ToggleFlag(id: string) | Reset

  /** The state after one action. */
  function Apply(s: CalculatorState, e: Event): (r: CalculatorState)
    ensures e.Select? ==> r == WithPoints(s, e.category, e.points)
    ensures e.ToggleFlag? ==> forall c: Category :: Points(r, c) == Points(s, c)
    ensures e.ToggleFlag? ==> r.directQualifications == Toggle(s.directQualifications, e.id)
    ensures e.Reset? ==> r == InitialState
  {
    match e
    case Select(c, p) => WithPoints(s, c, p)
    case ToggleFlag(id) => s.(directQualifications := Toggle(s.directQualifications, id))
    case Reset => InitialState
  }

  /** A fresh session has a zero total, no active flag and a low-impact verdict. */
  lemma InitialStateIsLowImpact()
    ensures forall c: Category :: Points(InitialState, c) == 0
    ensures InitialState.directQualifications == {}
    ensures TotalPoints(InitialState) == 0
    ensures !IsLargeScaleByPoints(InitialState) && !IsLargeScaleByDirect(InitialState)
    ensures !IsLargeScale(InitialState)
  {
  }

  /** Reset yields a zero total, no active flags and a low-impact verdict, whatever came before. */
  lemma ResetIsLowImpact(s: CalculatorState)
    ensures TotalPoints(Apply(s, Reset)) == 0
    ensures Apply(s, Reset).directQualifications == {}
    ensures !IsLargeScale(Apply(s, Reset))
  {
    InitialStateIsLowImpact();
  }

  /** Raising a category's value, or activating a flag, never turns "large scale" into "low impact". */
  lemma VerdictMonotone(s: CalculatorState, e: Event)
    requires IsLargeScale(s)
    requires e.Select? ==> e.points >= Points(s, e.category)
    requires e.ToggleFlag? ==> e.id !in s.directQualifications
    requires !e.Reset?
    ensures IsLargeScale(Apply(s, e))
  {
    if e.ToggleFlag? {
      assert e.id in Apply(s, e).directQualifications;
    } else if IsLargeScaleByDirect(s) {
      assert Apply(s, e).directQualifications == s.directQualifications;
    } else {
      TotalAfterWithPoints(s, e.category, e.points);
    }
  }

  // ---------------------------------------------------------------------------
  // Rubric-consistent states

  /** Every category holds 0 ("unanswered") or one of the values its rubric lists. */
  predicate WellFormed(s: CalculatorState)
  {
    forall c: Category :: Points(s, c) == 0 || Points(s, c) in ListedPoints(c)
  }

  /** Every category has been answered. */
  predicate FullyAnswered(s: CalculatorState)
  {
    forall c: Category :: Points(s, c) != 0
  }

  /** Selecting a listed value keeps a state rubric-consistent. */
  lemma WithPointsPreservesWellFormed(s: CalculatorState, c: Category, p: HalfPoints)
    requires WellFormed(s)
    requires p in ListedPoints(c)
    ensures WellFormed(WithPoints(s, c, p))
  {
  }

  /** In a rubric-consistent state, every category lies between 0 and its highest option. */
  lemma PointsAtMostHighest(s: CalculatorState, c: Category)
    requires WellFormed(s)
    ensures 0 <= Points(s, c) <= MaxPoints(c)
  {
    if Points(s, c) != 0 {
      ListedPointsBounds(c, Points(s, c));
    }
  }

  /** In a rubric-consistent state, an answered category holds at least its lowest option. */
  lemma AnsweredAtLeastLowest(s: CalculatorState, c: Category)
    requires WellFormed(s)
    requires Points(s, c) != 0
    ensures MinPoints(c) <= Points(s, c)
  {
    ListedPointsBounds(c, Points(s, c));
  }

  /** The highest option of each category: 4, 3, 3, 2, 2 and 3 points. */
  lemma HighestOptionValues()
    ensures MaxPoints(Titulares) == 8 && MaxPoints(Volumen) == 6 && MaxPoints(Datos) == 6
    ensures MaxPoints(Frecuencia) == 4 && MaxPoints(Permanencia) == 4 && MaxPoints(Geografia) == 6
  {
  }

  /** The lowest option of each category: 1, 0.5, 0.5, 0.5, 0.5 and 1 point. */
  lemma LowestOptionValues()
    ensures MinPoints(Titulares) == 2 && MinPoints(Volumen) == 1 && MinPoints(Datos) == 1
    ensures MinPoints(Frecuencia) == 1 && MinPoints(Permanencia) == 1 && MinPoints(Geografia) == 2
  {
  }

  /** The highest achievable total is 17 points (34 half-points). */
  lemma MaxTotal(s: CalculatorState)
    requires WellFormed(s)
    ensures 0 <= TotalPoints(s) <= 34
  {
    HighestOptionValues();
    PointsAtMostHighest(s, Titulares);
    PointsAtMostHighest(s, Volumen);
    PointsAtMostHighest(s, Datos);
    PointsAtMostHighest(s, Frecuencia);
    PointsAtMostHighest(s, Permanencia);
    PointsAtMostHighest(s, Geografia);
  }

  /** A fully answered form totals at least 4 points (8 half-points). */
  lemma MinAnsweredTotal(s: CalculatorState)
    requires WellFormed(s) && FullyAnswered(s)
    ensures TotalPoints(s) >= 8
  {
    LowestOptionValues();
    AnsweredAtLeastLowest(s, Titulares);
    AnsweredAtLeastLowest(s, Volumen);
    AnsweredAtLeastLowest(s, Datos);
    AnsweredAtLeastLowest(s, Frecuencia);
    AnsweredAtLeastLowest(s, Permanencia);
    AnsweredAtLeastLowest(s, Geografia);
  }

  /** The state with every category at its highest option. */
  function HighestAnswers(): (s: CalculatorState)
    ensures WellFormed(s) && FullyAnswered(s)
    ensures TotalPoints(s) == 34
  {
    CalculatorState(MaxPoints(Titulares), MaxPoints(Volumen), MaxPoints(Datos),
                    MaxPoints(Frecuencia), MaxPoints(Permanencia), MaxPoints(Geografia), {})
  }

  /** The state with every category at its lowest option: fully answered, yet low impact. */
  function LowestAnswers(): (s: CalculatorState)
    ensures WellFormed(s) && FullyAnswered(s)
    ensures TotalPoints(s) == 8
    ensures !IsLargeScale(s)
  {
    CalculatorState(MinPoints(Titulares), MinPoints(Volumen), MinPoints(Datos),
                    MinPoints(Frecuencia), MinPoints(Permanencia), MinPoints(Geografia), {})
  }

  /** The indices of the options highlighted for category `c`: those whose value equals the held value. */
  function Highlighted(s: CalculatorState, c: Category): set<nat>
  {
    set i: nat | i < |OptionsFor(c)| && OptionsFor(c)[i].points == Points(s, c)
  }

  /** At most one option is highlighted, and none while the category is unanswered. */
  lemma HighlightAtMostOne(s: CalculatorState, c: Category)
    ensures forall i, j :: i in Highlighted(s, c) && j in Highlighted(s, c) ==> i == j
    ensures Points(s, c) == 0 ==> Highlighted(s, c) == {}
  {
    forall i, j | i in Highlighted(s, c) && j in Highlighted(s, c) ensures i == j {
      ListedPointsIdentifyOption(c, i, j);
    }
  }

  /**
   In a rubric-consistent state the "+N PTS" badge of a category (shown when
   its value is positive) appears exactly when one of its options is highlighted.
   */
  lemma BadgeIffHighlighted(s: CalculatorState, c: Category)
    requires WellFormed(s)
    ensures Points(s, c) > 0 <==> Highlighted(s, c) != {}
  {
    var p := Points(s, c);
    if p != 0 {
      assert p in ListedPoints(c);
      var i :| 0 <= i < |OptionsFor(c)| && OptionsFor(c)[i].points == p;
      assert i in Highlighted(s, c);
      AnsweredAtLeastLowest(s, c);
    } else {
      HighlightAtMostOne(s, c);
    }
  }

  // ---------------------------------------------------------------------------
  // Titles

  /** The heading shown for a rubric key; a key that is not a category is shown as it is. */
  function CategoryTitle(key: string): (title: string)
    ensures CategoryFromKey(key).None? ==> title == key
    ensures CategoryFromKey(key).Some? ==> title != key
  {
    if key == "titulares" then "Número de Titulares"
    else if key == "volumen" then "Volumen de Datos"
    else if key == "datos" then "Categorías de Datos"
    else if key == "frecuencia" then "Frecuencia del Tratamiento"
    else if key == "permanencia" then "Permanencia"
    else if key == "geografia" then "Alcance Geográfico"
    else key
  }

  /** The six categories get six different titles. */
  lemma CategoryTitlesDistinct(c: Category, d: Category)
    ensures CategoryTitle(CategoryKey(c)) == CategoryTitle(CategoryKey(d)) ==> c == d
  {
  }

  // ---------------------------------------------------------------------------
  // The component's state holder

  /** The calculator's single state record, replaced wholesale by each handler. */
  class Calculator {
    var state: CalculatorState

    constructor ()
      ensures state == InitialState
      ensures TotalPoints(state) == 0 && !IsLargeScale(state)
    {
      state := InitialState;
      InitialStateIsLowImpact();
    }

    /** Record `points` as the answer for `category`; nothing else changes. */
    method SetPoints(category: Category, points: HalfPoints)
      modifies this
      ensures state == Apply(old(state), Select(category, points))
      ensures Points(state, category) == points
      ensures forall d: Category :: d != category ==> Points(state, d) == Points(old(state), d)
      ensures state.directQualifications == old(state).directQualifications
      ensures TotalPoints(state) == TotalPoints(old(state)) - Points(old(state), category) + points
      ensures WellFormed(old(state)) && points in ListedPoints(category) ==> WellFormed(state)
    {
      state := WithPoints(state, category, points);
      TotalAfterWithPoints(old(state), category, points);
      if WellFormed(old(state)) && points in ListedPoints(category) {
        WithPointsPreservesWellFormed(old(state), category, points);
      }
    }

    /** Activate `id` if inactive, deactivate it if active; the category values stay as they are. */
    method ToggleDirectQualification(id: string)
      modifies this
      ensures state == Apply(old(state), ToggleFlag(id))
      ensures id in state.directQualifications <==> id !in old(state).directQualifications
      ensures forall x :: x != id ==> (x in state.directQualifications <==> x in old(state).directQualifications)
      ensures forall c: Category :: Points(state, c) == Points(old(state), c)
    {
      var next := state.directQualifications;
      if id in next {
        next := next - {id};
      } else {
        next := next + {id};
      }
      state := state.(directQualifications := next);
    }

    /** Return to the initial state, whatever the current one. */
    method HandleReset()
      modifies this
      ensures state == Apply(old(state), Reset)
      ensures TotalPoints(state) == 0 && state.directQualifications == {} && !IsLargeScale(state)
    {
      state := InitialState;
      InitialStateIsLowImpact();
    }
  }
}
