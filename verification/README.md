# CalcLOPDP scoring evaluator in Dafny

This project models the decision logic of CalcLOPDP. CalcLOPDP is a single-page calculator. It decides whether a personal-data processing activity counts as "large scale" ("a gran escala") under Ecuador's LOPDP, following Resolución SPDP-SPD-2026-0005-R.

The user answers six scoring categories and may tick any of eight direct-risk criteria. The categories are titulares, volumen, datos, frecuencia, permanencia and geografia. The activity is large scale when the answers total at least 6 points, or when at least one criterion is ticked.

Points are integer **half-points** throughout. Every value in the rubric is a multiple of 0.5. So 0.5 points is `1`, the 6-point threshold is `12`, and the 17-point maximum is `34`.

Files and modules:

- `types.dfy`, module `Types` (types.ts). It defines:
  - the closed `Category` set and its string keys;
  - the `ScoringOption` record (types.ts `Option`; its label field is called `caption` because `label` is a Dafny keyword), which has an optional description;
  - the `DirectCheck` record, whose description is required;
  - the `CalculatorState` record: one value per category plus a `set<string>` of active criterion ids.
- `constants.dfy`, module `Constants` (constants.ts). It holds:
  - the rubric table `ScoringRules`, keyed by category key, with the option lists as `const`s;
  - the eight-entry `DirectQualifications` list;
  - their properties, and the lookup of a criterion by id that the printed report uses.
- `app.dfy`, module `App` (App.tsx lines 10-60). It holds:
  - the initial state;
  - the total and the three verdict predicates;
  - the two transitions as functions on the state value (`WithPoints`, `Toggle`), plus `Apply` for one user action;
  - the rubric-consistency invariant and the option-highlighting rule;
  - `CategoryTitle`;
  - the class `Calculator`. It is the component's state holder: one `state` field that the handlers `SetPoints`, `ToggleDirectQualification` and `HandleReset` replace.
- `session.dfy`, module `Session`. A session is a sequence of user actions replayed from the initial state. This module characterises the state at the end of a session and proves that sessions made only of interface actions stay rubric-consistent. It also holds a few worked sessions.

The component keeps its whole state in one record (`useState<CalculatorState>`). Every handler stores a new record. The model therefore has a value type `CalculatorState` and a class whose one field holds that record. Each method replaces the field with a new record.

`setPoints` accepts any number (App.tsx:38-40), and nothing in the type of the state restricts the values. `WithPoints` and `Calculator.SetPoints` therefore have no precondition on the value. That only the rubric's values reach the state is a property of the callers (App.tsx:181). The model proves it separately: `WithPointsPreservesWellFormed` covers one step and `Session.InterfaceSessionsWellFormed` covers whole sessions. The model could require a listed value in `SetPoints`. The code does not enforce one, so neither does the model.

## Model

| member | source | states |
|---|---|---|
| Types.AllCategories | types.ts:2 | The category set is closed: exactly six values, pairwise distinct, and every category is among them. |
| Types.CategoryFromKey | App.tsx:164-171 | A rubric key read back as a category gives the category whose key it is; a string that is no category's key gives none. |
| Types.CategoryKeyRoundTrip | types.ts:2 | `CategoryKey` gives each category its literal name from the `Category` union, and every such key reads back as that category. |
| Types.CategoryKeyInjective | types.ts:2 | Distinct categories have distinct keys. |
| Types.StateExtensionality | types.ts:16-24 | `Points(s, c)` is the read `state[key as Category]`. The state is nothing more than one value per category and the flag set: two states that agree on every `Points` read and on the flags are equal. |
| Constants.OptionsFor | constants.ts:4-37 | Each category lists three or four options, with positive values that strictly increase in listed order. |
| Constants.ScoringRulesKeys | constants.ts:4-37 | The rubric table `ScoringRules` has exactly the six category keys, each holding that category's option list. |
| Constants.ListedPoints | constants.ts:5-36 | The values a category offers are exactly those of its options; 0 is never one of them, so 0 can only mean "unanswered". |
| Constants.ListedPointsBounds | constants.ts:5-36 | Every listed value lies between the category's first and last option, and the first is positive. |
| Constants.ListedPointsIdentifyOption | constants.ts:5-36 | Two options of one category with the same value are the same option. |
| Constants.DirectQualificationsDistinct | constants.ts:39-48 | The list `DirectQualifications` has exactly eight direct-risk criteria, with pairwise distinct ids. |
| Constants.DirectQualificationIds | constants.ts:40-47 | The criteria's ids in listed order are health, profiling, surveillance, biometrics, credit, children, transfers and courier. |
| Constants.DirectIdsAreTheEight | constants.ts:39-48 | The set of toggleable ids (`DirectIds`) is exactly those eight strings. |
| Constants.IdSetSize | constants.ts:39-48 | A list of criteria with distinct ids has as many distinct ids as entries. |
| Constants.DirectIdsCount | constants.ts:39-48 | There are exactly eight toggleable ids, one per card. |
| Constants.FindQualification | App.tsx:277-281 | Looking up an id gives a listed entry carrying that id, or nothing when no entry carries it. |
| Constants.FindQualificationFirst | App.tsx:280 | Like `Array.prototype.find`, the lookup returns the first entry carrying the id: no earlier entry carries it. |
| Constants.FindQualificationUnique | App.tsx:280 | With distinct ids, the lookup of an entry's id returns that very entry. |
| Constants.FindDirectQualification | App.tsx:280 | Every listed criterion's id finds its entry, so the report can label every active listed criterion; any other id finds nothing. |
| App.InitialStateIsLowImpact | App.tsx:10-18 | The initial state `InitialState` has every category at 0, no active flag, total 0, and neither verdict path holds. |
| App.TotalIsSumOverCategories | App.tsx:23-25 | The total `TotalPoints` equals the sum of the six category values, added one category at a time over the listing of all categories. |
| App.VerdictRule | App.tsx:27-29 | For the predicates `IsLargeScaleByPoints` (total at least 12 half-points), `IsLargeScaleByDirect` (flag set non-empty) and `IsLargeScale` (either): large scale holds exactly when the total reaches 6 points or some flag is active. A total of exactly 6 counts. Below 6 with no flag is low impact. |
| App.WithPoints | App.tsx:38-40 | Setting a category makes it hold the new value, which replaces the old one. The other five categories and the flag set are unchanged. |
| App.TotalAfterWithPoints | App.tsx:38-40 | Setting a category changes the total by the new value minus the old one. |
| App.WithPointsLastWins | App.tsx:38-40 | Setting a category twice is the same as the last setting alone, so setting the same value twice is idempotent. |
| App.WithPointsCommute | App.tsx:38-40 | Settings of two different categories can be made in either order. |
| App.Toggle | App.tsx:31-35 | Toggling flips the membership of the given id and keeps every other id's membership. |
| App.ToggleInvolutive | App.tsx:31-35 | Toggling the same id twice gives back the original flag set. |
| App.ToggleSize | App.tsx:28-34 | Toggling moves the flag count (the `size` the verdict reads) up or down by exactly one. |
| App.Apply | App.tsx:31-44 | One user action selects a value, toggles a flag without touching the categories, or resets to the initial state. |
| App.ResetIsLowImpact | App.tsx:42-44 | After a reset the total is 0, no flag is active and the verdict is low impact, whatever the state before. |
| App.VerdictMonotone | App.tsx:27-29 | Raising a category's value or activating a flag never turns large scale into low impact. |
| App.WithPointsPreservesWellFormed | App.tsx:178-181 | When every category holds 0 or a listed value, selecting a listed value keeps that true. |
| App.PointsAtMostHighest | constants.ts:5-36 | In a rubric-consistent state each category holds between 0 and its highest option. |
| App.AnsweredAtLeastLowest | constants.ts:5-36 | In a rubric-consistent state an answered category holds at least its lowest option. |
| App.HighestOptionValues | constants.ts:5-36 | The highest options are worth 4, 3, 3, 2, 2 and 3 points. |
| App.LowestOptionValues | constants.ts:5-36 | The lowest options are worth 1, 0.5, 0.5, 0.5, 0.5 and 1 point. |
| App.MaxTotal | constants.ts:5-36 | A rubric-consistent state totals between 0 and 17 points. |
| App.MinAnsweredTotal | constants.ts:5-36 | A fully answered, rubric-consistent state totals at least 4 points. |
| App.HighestAnswers | constants.ts:5-36 | Answering every category with its highest option is rubric-consistent and reaches the 17-point maximum. |
| App.LowestAnswers | App.tsx:27 | Answering every category with its lowest option totals 4 points and is low impact, so a fully answered form can be low impact. |
| App.HighlightAtMostOne | App.tsx:183 | An option is highlighted when its value equals the category's current value (`Highlighted`). At most one option of a category is highlighted, and none while the category is unanswered. |
| App.BadgeIffHighlighted | App.tsx:171-183 | In a rubric-consistent state a category shows its "+N PTS" badge exactly when one of its options is highlighted. |
| App.CategoryTitle | App.tsx:50-60 | A key that is no category's key is returned unchanged, and a category key never is. |
| App.CategoryTitlesDistinct | App.tsx:50-60 | The six category keys get six different titles. |
| App.Calculator.constructor | App.tsx:20 | A new calculator holds the initial state: total 0 and low impact. |
| App.Calculator.SetPoints | App.tsx:38-40 | Handler for a category selection. It stores the new value for that category and leaves the rest unchanged. It adjusts the total by the difference and keeps rubric consistency when the value is listed. |
| App.Calculator.ToggleDirectQualification | App.tsx:31-36 | Handler for a criterion card. It flips that id's membership by copying the set and then deleting or adding the id. The other ids and all category values are unchanged. |
| App.Calculator.HandleReset | App.tsx:42-44 | Handler for the reset button. It restores the initial state: total 0, no flag, low impact. |
| Session.ReplayPoints | App.tsx:38-44 | After any sequence of actions, each category holds the value most recently selected for it since the last reset, or 0. |
| Session.ReplayFlags | App.tsx:31-44 | After any sequence of actions, an id is active exactly when it was toggled an odd number of times since the last reset. |
| Session.ReplayTotal | App.tsx:23-25 | After any sequence of actions, the total is the sum over the six categories of their most recently selected values. |
| Session.ApplyPreservesWellFormed | App.tsx:178-181 | One interface action (a listed value, a listed criterion or a reset) keeps the state rubric-consistent. |
| Session.ApplyKeepsListedFlags | App.tsx:142-145 | One interface action keeps every active flag a listed criterion. |
| Session.InterfaceSessionsWellFormed | App.tsx:178-181 | Every session made of interface actions ends with each category at 0 or a listed value. |
| Session.InterfaceSessionsListedFlags | App.tsx:142-145 | Every session made of interface actions ends with only listed criteria active. |
| Session.InterfaceSessionsBounded | App.tsx:23-25 | Every session made of interface actions totals between 0 and 17 points. |
| Session.NoAnswersIsLowImpact | App.tsx:10-29 | With nothing answered and no flag the total is 0 and the verdict is low impact. |
| Session.PointsPathScenario | App.tsx:23-29 | 100,001+ subjects and 101+ data types give 7 points: large scale by points, not by the direct path. |
| Session.DirectPathScenario | App.tsx:27-29 | Only the health criterion active: large scale by the direct path, not by points. |
| Session.ToggleOffScenario | App.tsx:31-35 | Activating and then deactivating the health criterion restores the state, so the verdict rests on points alone. |

## Left out

- Rendering is not modelled: the header, tabs, cards, badges, the floating result bar, the print-only report and the footer (App.tsx:62-296). The rules the rendering applies to state are modelled: the highlighting at App.tsx:183, the badge at App.tsx:171 and the report's label lookup at App.tsx:280.
- The tab state `activeTab` (App.tsx:21) is left out. It only chooses which panel is shown and has no effect on the verdict.
- `handlePrint` / `window.print()` (App.tsx:46-48), `LOGO_URL` and the external links are browser side effects and are left out.
- JavaScript `number` and the `toFixed(1)` display are not modelled. Points are exact integer half-points. So a value that is not a multiple of 0.5 cannot be represented, even though the source's `number` field would accept one.
- React hook mechanics (`useState`, `useMemo`, functional `setState`) are not modelled. Each handler is one atomic transition on the current state.
- Calculator.ToggleDirectQualification: builds the next set from the current state. The source builds it from the state captured at render time (App.tsx:32), while `setPoints` uses the pending state (App.tsx:39). The two differ only under batched or concurrent React updates, which are not modelled.
- The order of the rubric table's keys (`Object.entries` order) only fixes the display order of the cards. The table is a `map`, and `AllCategories` fixes the listing order separately.
- Label and description strings are kept verbatim as data. Nothing is proved about their contents beyond the criterion ids and the category titles.
