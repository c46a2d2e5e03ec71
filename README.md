# SCARF analyzer: question table, threat badge, strategy accordion and radar chart

This project models the logic of a client-side SCARF self-assessment quiz and proves
properties of it. SCARF names five social-threat domains: Status, Certainty, Autonomy,
Relatedness and Fairness. Three pieces are modelled:

- `scarf_questions.dfy`, module `ScarfQuestions`: the fixed table of twelve questions
  and its two queries, `getQuestionsByDomain` and `getTotalQuestions`. Each question has
  one domain tag and five answers scored 1 (no threat) to 5 (severe threat). The table is
  a constant `seq`, and the queries are functions over it.
- `strategy_accordion.dfy`, module `StrategyAccordion`: a domain's result card. It holds
  - the five-band threat badge `getThreatLevel`;
  - the score-bar width;
  - the "which strategy is expanded" state. A class `Accordion` holds it in one `Option`
    field, set by its constructor and changed by the click handler `Click`.
- `radar_chart.dfy`, module `RadarChart`: the chart's geometry. It covers
  - the centre and maximum radius;
  - the five grid-circle radii;
  - the shared axis angle;
  - `getPoint`, the axis ends and the label anchors;
  - the score vertices, with a missing score plotted as 0;
  - the command structure of the closed polygon path.

  Cosine, sine and π are not computed. They are fields of a `Trig` value passed in, so
  every proved fact holds for any functions in their place.

JavaScript numbers are modelled as `real`. The score record `Record<string, number>` is a
`map<string, real>`.

## Model

| member | source | states |
|---|---|---|
| `ScarfQuestions.QuestionIdsAreOneToTwelve` | lib/data/scarf-questions.ts:15-185 | The table has exactly 12 questions, and `getTotalQuestions` returns 12. Question `i` in table order has id `i+1`, so ids strictly ascend and are unique. |
| `ScarfQuestions.AnswerScoresAscendOneToFive` | lib/data/scarf-questions.ts:22-175 | Every question has exactly five answers, and the `k`-th answer scores `k+1`. This includes the reverse-worded questions 7 and 12. |
| `ScarfQuestions.AnswerScoresInRange` | lib/data/scarf-questions.ts:22-175 | Every answer score in the table lies in [1,5]. |
| `ScarfQuestions.QuestionAnswerIds` | lib/data/scarf-questions.ts:23-174 | For every question, the five answer ids are the question id followed by `a`, `b`, `c`, `d` and `e`. |
| `ScarfQuestions.AnswerIdsUnique` | lib/data/scarf-questions.ts:23-174 | Every answer id is its question's id in decimal followed by `a`..`e` in list order. No two answers anywhere in the table share an id. |
| `ScarfQuestions.DecimalStringInjective` | lib/data/scarf-questions.ts:23-174 | Distinct question numbers give distinct id prefixes. This is what makes answer ids unique across questions. |
| `ScarfQuestions.AnswerIdInjective` | lib/data/scarf-questions.ts:23-174 | An answer id determines both its question number and its letter. |
| `ScarfQuestions.GetTotalQuestions` | lib/data/scarf-questions.ts:183-185 | The total question count is 12. |
| `ScarfQuestions.FilterByDomain` | lib/data/scarf-questions.ts:180 | The filter never returns more questions than it is given. Its meaning is stated by `FilterMembership` and `FilterKeepsOrder`. |
| `ScarfQuestions.FilterMembership` | lib/data/scarf-questions.ts:179-181 | A question is in the filter's result iff it is in the input and its domain tag equals the requested string. |
| `ScarfQuestions.FilterKeepsOrder` | lib/data/scarf-questions.ts:179-181 | If the input's ids ascend, so do the result's, so input order is kept. |
| `ScarfQuestions.GetQuestionsByDomain` | lib/data/scarf-questions.ts:179-181 | The result is no longer than the table, and every returned question carries the requested domain tag. Its exact contents are stated by `GetQuestionsByDomainSpec` and `QuestionsPerDomain`. |
| `ScarfQuestions.GetQuestionsByDomainSpec` | lib/data/scarf-questions.ts:179-181 | `getQuestionsByDomain(d)` returns exactly the table's questions tagged `d`, in table order (ascending ids). |
| `ScarfQuestions.UnknownDomainIsEmpty` | lib/data/scarf-questions.ts:179-181 | A string that is none of the five domain tags yields the empty list. |
| `ScarfQuestions.FilterAppend` | lib/data/scarf-questions.ts:180 | Filtering a concatenation gives the concatenation of the filtered parts. |
| `ScarfQuestions.QuestionsPerDomain` | lib/data/scarf-questions.ts:15-181 | The exact result per domain: questions 1-2 for status, 3-5 for certainty, 6-7 for autonomy, 8-10 for relatedness and 11-12 for fairness. |
| `ScarfQuestions.QuestionCountsPerDomain` | lib/data/scarf-questions.ts:9-181 | The per-domain counts are status 2, certainty 3, autonomy 2, relatedness 3 and fairness 2. |
| `ScarfQuestions.DomainFiltersPartition` | lib/data/scarf-questions.ts:179-181 | For any question list, the five domain filters are pairwise disjoint. Their sizes sum to the list's length. |
| `ScarfQuestions.DomainFiltersCover` | lib/data/scarf-questions.ts:179-181 | Every question of a list is kept by the filter for its own domain. |
| `ScarfQuestions.DomainQueriesPartitionTable` | lib/data/scarf-questions.ts:179-185 | The five domain queries are disjoint and cover the table. Their sizes sum to `getTotalQuestions()`. |
| `StrategyAccordion.GetThreatLevel` | components/StrategyAccordion.tsx:18-24 | Every score maps to one of the five (label, colour) levels. Each level is returned iff the score lies in its upper-inclusive band: ≤1.5 gives 낮음/green, (1.5,2.5] gives 경미/blue, (2.5,3.5] gives 보통/yellow, (3.5,4.5] gives 높음/orange, and >4.5 gives 매우 높음/red. |
| `StrategyAccordion.ThreatLevelCountsBounds` | components/StrategyAccordion.tsx:18-24 | The if-chain agrees with an independent definition: the level's rank is the number of band bounds (1.5, 2.5, 3.5, 4.5) that the score exceeds. |
| `StrategyAccordion.ThreatLevelMonotone` | components/StrategyAccordion.tsx:18-24 | A higher score never yields a lower level. |
| `StrategyAccordion.ScoreBarWidth` | components/StrategyAccordion.tsx:87 | The width is 0% at score 0 and 100% at score 5. It stays within [0,100] for scores in [0,5]. It is not clamped: it exceeds 100 above 5 and is negative below 0. |
| `StrategyAccordion.InitialExpanded` | components/StrategyAccordion.tsx:14-16 | Some strategy is open at first iff the card is high priority and has strategies. The open one is then the first strategy. |
| `StrategyAccordion.InitiallyOpen` | components/StrategyAccordion.tsx:14-16 | When strategy ids are distinct, a fresh card shows exactly one open panel (the first strategy) if it is high priority with strategies, and none otherwise. |
| `StrategyAccordion.IsExpanded` | components/StrategyAccordion.tsx:114-124 | A panel is rendered open only when the state names its strategy, so a state opens at most one panel and the empty state opens none. |
| `StrategyAccordion.Toggled` | components/StrategyAccordion.tsx:107-109 | After a click on `id`, `id` is open iff it was closed before. Any non-empty new state opens `id` itself, so no other panel stays open. |
| `StrategyAccordion.ToggleOpensOnlyClicked` | components/StrategyAccordion.tsx:107-124 | After clicking `s`, `s` is rendered expanded iff it was not expanded before, and every other strategy is rendered collapsed. |
| `StrategyAccordion.ToggleTwiceRestores` | components/StrategyAccordion.tsx:107-109 | Clicking the same strategy twice restores the state when nothing or that strategy was open. |
| `StrategyAccordion.ToggleTwiceClosesOther` | components/StrategyAccordion.tsx:107-109 | When another strategy was open, clicking `s` twice leaves nothing open, not the prior state. |
| `StrategyAccordion.AtMostOneOpen` | components/StrategyAccordion.tsx:101-124 | When strategy ids are distinct, at most one panel is rendered open in any state. Exactly one is open iff the state names a listed strategy. |
| `StrategyAccordion.Accordion.constructor` | components/StrategyAccordion.tsx:14-16 | The state starts as `InitialExpanded(domain, isHighPriority)`. |
| `StrategyAccordion.Accordion.Click` | components/StrategyAccordion.tsx:107-109 | Clicking `id` sets the state to none if `id` was expanded, and to `id` otherwise. |
| `RadarChart.Center` | components/RadarChart.tsx:12 | The centre is half the size. |
| `RadarChart.MaxRadius` | components/RadarChart.tsx:12-13 | The maximum radius is the centre minus 40. It is positive iff `size > 80`, since the size is not validated. |
| `RadarChart.LevelCircles` | components/RadarChart.tsx:14-32 | There are five grid radii, evenly spaced by `maxRadius/5`, and the last equals `maxRadius`. When `maxRadius > 0` they are positive and strictly increasing. |
| `RadarChart.AngleSpacing` | components/RadarChart.tsx:16-20 | Axis 0 is at `-π/2`. Consecutive axes are exactly `2π/N` apart, and `N` steps make a full turn. |
| `RadarChart.Angle` | components/RadarChart.tsx:16-20 | Axis 0 points straight up (`-π/2`). The axis a quarter of the way round points right (angle 0). |
| `RadarChart.Polar` | components/RadarChart.tsx:22-25 | At radius 0 the point is the centre. Otherwise it is the centre displaced by `radius` times the direction (`cos`, `sin`) of the angle. |
| `RadarChart.GetPoint` | components/RadarChart.tsx:19-26 | The point for value 0 is exactly the centre. |
| `RadarChart.RadiusScaling` | components/RadarChart.tsx:19-26 | For every value and axis, the point lies on that axis, at `value/5` of the way from the centre to the axis end. The radius scales linearly with the score. |
| `RadarChart.DefaultChartGrid` | components/RadarChart.tsx:11-32 | The default 300-pixel chart has maximum radius 110 and grid circles at 22, 44, 66, 88 and 110. |
| `RadarChart.AxisLines` | components/RadarChart.tsx:35-41 | There is one axis end per domain, and axis end `i` is `getPoint(i, 5)`. |
| `RadarChart.LabelPositions` | components/RadarChart.tsx:133-137 | There is one label anchor per domain. When `maxRadius ≠ 0`, anchor `i` is `getPoint(i, v)` for the value `v` whose radius is `maxRadius + 30`, so it shares axis `i`'s angle. When `maxRadius = 0` (size 80), anchor `i` is 30 from the centre along axis `i`. |
| `RadarChart.ScoreOf` | components/RadarChart.tsx:45 | `scores[id] \|\| 0`: a missing domain reads as 0, and a present one reads as its score. |
| `RadarChart.ScorePoints` | components/RadarChart.tsx:44-47 | There is one vertex per domain, in domain order, and vertex `i` is `getPoint(i, scores[id] or 0)`. A domain with no score sits at the centre. A domain scored 5 sits at the end of its axis. |
| `RadarChart.PolygonPath` | components/RadarChart.tsx:49-51 | There is one command per point plus a final close. The first command is `M`, the rest are `L`, and the path ends with `Z`. |
| `RadarChart.PolygonPathVisitsPoints` | components/RadarChart.tsx:49-51 | Reading the vertices back from the path gives exactly the input points in order. A non-empty polygon starts exactly one subpath. |
| `RadarChart.ScarfDomainIds` | components/RadarChart.tsx:15 | The chart has five axes with pairwise distinct ids. Every domain tag has an axis, so every question's domain is plotted. |
| `RadarChart.ScarfChartVertices` | components/RadarChart.tsx:44-47 | The SCARF chart has five vertices. Vertex `i` plots the score of status, certainty, autonomy, relatedness and fairness for `i` = 0..4 respectively. |

## Left out

- The answer aggregator, the domain ranker and the intro/quiz/results navigation are not modelled. None of them is in the modelled files.
- `lib/data/scarf-elements` is not part of this model. Domains and strategies are reduced to the fields the modelled code reads: a domain's `id` and its `strategies[].id`.
- `RadarChart.ScarfDomainIds`: the chart's axis ids are assumed to be the five tags of the `domain` union type of `lib/data/scarf-questions.ts:9`, in that order. The actual `scarfDomains` list is not part of this model. Its distinct ids and its coverage of every domain are proved of this assumed list only.
- `Math.cos`, `Math.sin` and `Math.PI` are parameters (`Trig`). No trigonometric identity is used. So "the vertex for score 5 is at distance `maxRadius`" is shown only as "it is the end of its axis line".
- The SVG path string is modelled as a list of commands. JavaScript's number-to-string formatting, the spaces and the `join` are not modelled.
- Scores are `real`. NaN, infinities and floating-point rounding are not modelled. A NaN score would fail every comparison in `getThreatLevel` and reach the last band. `scores[id] || 0` would also map a NaN score to 0.
- `StrategyAccordion.ToggleTwiceRestores`: its precondition limits it to the case where nothing or the clicked strategy was open. `ToggleTwiceClosesOther` proves that the round trip fails otherwise.
- `domain.strategies[0]?.id` yields `undefined` for an empty list, while a click stores `null`. Both are modelled as `None`, since neither equals any strategy id.
- The threat-level field `label` is named `labelText`, because `label` is a Dafny keyword.
- Animation, styling, gradients, SVG/JSX markup, the legend's `toFixed` display and `score.toFixed(1)` are presentation only and are not modelled.
- `app/page.tsx` is a random placeholder analyser driven by a timer. `components/QuestionCard.tsx`, `components/ProgressBar.tsx` and `app/layout.tsx` are UI only. None of them is modelled.
- Out-of-range scores are not rejected. The code does not validate them, so `ScoreBarWidth` and `GetPoint` accept any value, as the code does.
