/**
 A session is the sequence of user actions applied to the initial state. This
 module characterises the state a session ends in without replaying it: each
 category holds the value most recently selected for it since the last reset
 (0 if none), and a flag is active exactly when it was toggled an odd number of
 times since the last reset. It also proves that sessions driven by the
 interface, which only offers rubric values and listed criteria, stay
 rubric-consistent.
 */
module Session {
  import opened Types
  import opened Constants
  import opened App

  /** The state after the actions of `events`, applied in order to the initial state. */
  function Replay(events: seq<Event>): (s: CalculatorState)
  {
    if |events| == 0 then InitialState
    else Apply(Replay(events[..|events| - 1]), events[|events| - 1])
  }

  /** The value most recently selected for `c` since the last reset, 0 if there is none. */
  function LatestPoints(events: seq<Event>, c: Category): (p: HalfPoints)
  {
    if |events| == 0 then 0
    else
      var e := events[|events| - 1];
      if e.Reset? then 0
      else if e.Select? && e.category == c then e.points
      else LatestPoints(events[..|events| - 1], c)
  }

  /** Whether `id` was toggled an odd number of times since the last reset. */
  predicate ToggledOddly(events: seq<Event>, id: string)
  {
    if |events| == 0 then false
    else
      var e := events[|events| - 1];
      if e.Reset? then false
      else if e.ToggleFlag? && e.id == id then !ToggledOddly(events[..|events| - 1], id)
      else ToggledOddly(events[..|events| - 1], id)
  }

  /** Each category ends holding its most recently selected value since the last reset. */
  lemma {:induction false} ReplayPoints(events: seq<Event>, c: Category)
    ensures Points(Replay(events), c) == LatestPoints(events, c)
  {
    if |events| == 0 {
      InitialStateIsLowImpact();
    } else {
      var prefix := events[..|events| - 1];
      ReplayPoints(prefix, c);
      if events[|events| - 1].Reset? {
        InitialStateIsLowImpact();
      }
    }
  }

  /** A flag ends active exactly when it was toggled an odd number of times since the last reset. */
  lemma {:induction false} ReplayFlags(events: seq<Event>, id: string)
    ensures id in Replay(events).directQualifications <==> ToggledOddly(events, id)
  {
    if |events| == 0 {
      InitialStateIsLowImpact();
    } else {
      var prefix := events[..|events| - 1];
      ReplayFlags(prefix, id);
      if events[|events| - 1].Reset? {
        InitialStateIsLowImpact();
      }
    }
  }

  /** The total after a session is the sum, over the six categories, of their latest values. */
  lemma ReplayTotal(events: seq<Event>)
    ensures TotalPoints(Replay(events)) ==
      LatestPoints(events, Titulares) + LatestPoints(events, Volumen) + LatestPoints(events, Datos) +
      LatestPoints(events, Frecuencia) + LatestPoints(events, Permanencia) + LatestPoints(events, Geografia)
  {
    ReplayPoints(events, Titulares);
    ReplayPoints(events, Volumen);
    ReplayPoints(events, Datos);
    ReplayPoints(events, Frecuencia);
    ReplayPoints(events, Permanencia);
    ReplayPoints(events, Geografia);
  }

  /** An action the interface can produce: a listed option's value, a listed criterion, or reset. */
  predicate FromInterface(e: Event)
  {
    match e
    case Select(c, p) => p in ListedPoints(c)
    case ToggleFlag(id) => id in DirectIds()
    case Reset => true
  }

  /** Every action of the session came from the interface. */
  predicate InterfaceSession(events: seq<Event>)
  {
    forall i :: 0 <= i < |events| ==> FromInterface(events[i])
  }

  /** One interface action keeps a state rubric-consistent. */
  lemma ApplyPreservesWellFormed(s: CalculatorState, e: Event)
    requires WellFormed(s) && FromInterface(e)
    ensures WellFormed(Apply(s, e))
  {
    match e
    case Select(c, p) =>
      WithPointsPreservesWellFormed(s, c, p);
    case ToggleFlag(id) =>
      assert forall c: Category :: Points(Apply(s, e), c) == Points(s, c);
    case Reset =>
      InitialStateIsLowImpact();
  }

  /** One interface action keeps every active flag a listed criterion. */
  lemma ApplyKeepsListedFlags(s: CalculatorState, e: Event)
    requires s.directQualifications <= DirectIds() && FromInterface(e)
    ensures Apply(s, e).directQualifications <= DirectIds()
  {
    if e.Reset? {
      InitialStateIsLowImpact();
    }
  }

  /** A session made of interface actions ends in a rubric-consistent state. */
  lemma {:induction false} InterfaceSessionsWellFormed(events: seq<Event>)
    requires InterfaceSession(events)
    ensures WellFormed(Replay(events))
  {
    if |events| == 0 {
      InitialStateIsLowImpact();
    } else {
      var prefix := events[..|events| - 1];
      var e := events[|events| - 1];
      assert FromInterface(e);
      assert InterfaceSession(prefix) by {
        forall i | 0 <= i < |prefix| ensures FromInterface(prefix[i]) {
          assert prefix[i] == events[i];
        }
      }
      InterfaceSessionsWellFormed(prefix);
      ApplyPreservesWellFormed(Replay(prefix), e);
    }
  }

  /** In a session made of interface actions, every active flag is a listed criterion. */
  lemma {:induction false} InterfaceSessionsListedFlags(events: seq<Event>)
    requires InterfaceSession(events)
    ensures Replay(events).directQualifications <= DirectIds()
  {
    if |events| == 0 {
      InitialStateIsLowImpact();
    } else {
      var prefix := events[..|events| - 1];
      var e := events[|events| - 1];
      assert FromInterface(e);
      assert InterfaceSession(prefix) by {
        forall i | 0 <= i < |prefix| ensures FromInterface(prefix[i]) {
          assert prefix[i] == events[i];
        }
      }
      InterfaceSessionsListedFlags(prefix);
      ApplyKeepsListedFlags(Replay(prefix), e);
    }
  }

  /** Every session driven by the interface totals between 0 and 17 points. */
  lemma InterfaceSessionsBounded(events: seq<Event>)
    requires InterfaceSession(events)
    ensures 0 <= TotalPoints(Replay(events)) <= 34
  {
    InterfaceSessionsWellFormed(events);
    MaxTotal(Replay(events));
  }

  // ---------------------------------------------------------------------------
  // Worked sessions

  /** Nothing answered and no flag: 0 points, low impact. */
  lemma NoAnswersIsLowImpact()
    ensures TotalPoints(Replay([])) == 0 && !IsLargeScale(Replay([]))
  {
    InitialStateIsLowImpact();
  }

  /** 100,001+ subjects (4 points) and 101+ data types (3 points): 7 points, large scale by points alone. */
  lemma PointsPathScenario()
    ensures var s := Apply(Apply(InitialState, Select(Titulares, 8)), Select(Volumen, 6));
      TotalPoints(s) == 14 && IsLargeScaleByPoints(s) && !IsLargeScaleByDirect(s)
  {
    InitialStateIsLowImpact();
  }

  /** Only the health criterion active: large scale by the direct path, not by points. */
  lemma DirectPathScenario()
    ensures var s := Apply(InitialState, ToggleFlag("health"));
      IsLargeScaleByDirect(s) && !IsLargeScaleByPoints(s)
  {
    InitialStateIsLowImpact();
    assert "health" in Apply(InitialState, ToggleFlag("health")).directQualifications;
  }

  /** Activating the health criterion and toggling it off again leaves no flag, so the verdict rests on points. */
  lemma ToggleOffScenario(s: CalculatorState)
    requires s.directQualifications == {}
    ensures var t := Apply(Apply(s, ToggleFlag("health")), ToggleFlag("health"));
      t == s && (IsLargeScale(t) <==> IsLargeScaleByPoints(s))
  {
    ToggleInvolutive(s.directQualifications, "health");
  }
}
