# Bayes' Theorem teaching page — a Dafny model

The page shows two boxes of red and blue balls. The user sets the four ball
counts, "observes" a red or a blue ball, and the calculator panel shows the
prior of each box, the four likelihoods, the two marginals and the two
posteriors. This project models the three pieces of logic behind that page
and proves the laws it teaches:

- `InfoPanel` (`info_panel.dfy`) is the probability engine of the calculator
  panel. The priors are fixed at 1/2. A likelihood is a colour's share of a
  box, and 0 for an empty box. A marginal is the prior-weighted sum of
  likelihoods. The posteriors fall back to the priors when nothing is
  observed or the observed colour has probability 0. All quantities are
  exact `real`s.
- `Box` (`box.dfy`) builds the list of balls a box draws. It holds
  `redCount` reds and `blueCount` blues in any order. A count that is not a
  valid JavaScript array length (negative, or 2^32 or more) makes `Array(n)`
  throw a RangeError; the model gives `None` there. Each ball carries a
  highlight flag and a dim flag derived from the observed colour.
- `App` (`app.dfy`) is the application shell. It holds two state cells: the
  observed colour and the four stored counts. `SetEvidence`, `Reset` and
  `ConfigChange` are functions on a `State` value. The class
  `AppComponent` keeps the two cells as fields, and its handler methods are
  proved to follow those functions. `getNumericConfig` turns the stored
  counts into the numbers the boxes and the panel receive.
- `JsParse` (`js_parse.dfy`) is the part of `parseInt(value, 10)` the
  change handler needs. It reads an optional sign and then leading decimal
  digits, and ignores what follows. No digits gives `None`, which stands for
  `NaN`.
- `Types` holds `BallColor` and `Wrappers` holds `Option`. `None` stands for
  the page's `null` evidence.

Four behaviours of the code are worth knowing:

- The change handler tests `count >= 0`, where `count` is `parseInt(value)`.
  `parseInt('')` is `NaN`, and `NaN >= 0` is false. So clearing a field is
  rejected and the old count stays, even though the handler has an
  alternative that stores `''` for an empty value. The model keeps that
  alternative (`Cell.Blank`), and `ClearingKeepsCount` together with
  `ReachableCountsValid` proves it is never taken. It follows that empty
  input is not "treated as zero": the edit is simply ignored.
- Observing a colour has no guard in the handler. Only the buttons are
  disabled while a colour is observed. `SetEvidence` therefore overwrites
  the evidence from any state, and `ObserveEnabled` models the buttons'
  enabled state.
- The change handler accepts any parse that is at least 0, and the inputs
  set only `min="0"`. So typing `4294967296` (2^32) into a count field is
  stored, and the next render of that box throws in `Array(n)`.
  `App.OversizedEditBreaksBox` exhibits this, and
  `App.EditKeepsBoxesDrawable` says exactly which edits make `Array(n)`
  throw.
- P(Red) + P(Blue) is 1 only when both boxes hold balls. It is 1/2 when
  exactly one box is empty and 0 when both are. Having "at least one
  non-empty box" is not enough for the sum to be 1.

## Model

| member | source | states |
|---|---|---|
| InfoPanel.Likelihood | components/InfoPanel.tsx:52-58 | for non-negative counts, P(c given box) lies in [0, 1] |
| InfoPanel.Marginal | components/InfoPanel.tsx:60-62 | for boxes with non-negative counts, P(c) lies in [0, 1] |
| InfoPanel.Calculate | components/InfoPanel.tsx:47-74 | both priors are 1/2; for non-negative counts the four likelihoods and two marginals of the report lie in [0, 1] |
| InfoPanel.EmptyBoxLikelihoods | components/InfoPanel.tsx:52-58 | a box whose total is not positive (an empty box) gives likelihood 0 to both colours |
| InfoPanel.LikelihoodsSumToOne | components/InfoPanel.tsx:55-58 | a box holding balls has P(Red given box) + P(Blue given box) = 1 |
| InfoPanel.MarginalsSum | components/InfoPanel.tsx:55-62 | for any counts, P(Red) + P(Blue) is 1 when both boxes have a positive total, 1/2 when exactly one does, 0 when neither does |
| InfoPanel.NoEvidenceKeepsPriors | components/InfoPanel.tsx:65-66 | with nothing observed, both posteriors are the priors 1/2 |
| InfoPanel.ImpossibleEvidenceKeepsPriors | components/InfoPanel.tsx:65-74 | with colour c observed and P(c) not positive, both posteriors stay 1/2 |
| InfoPanel.BayesRule | components/InfoPanel.tsx:68-73 | with c observed and P(c) > 0, each posterior is P(c given box) times P(box) divided by P(c) |
| InfoPanel.PosteriorsInUnit | components/InfoPanel.tsx:65-74 | for non-negative counts and any evidence, both posteriors lie in [0, 1] |
| InfoPanel.PosteriorsSumToOne | components/InfoPanel.tsx:68-73 | with c observed and P(c) > 0, the two posteriors add up to 1 |
| InfoPanel.EmptyBoxPosterior | components/InfoPanel.tsx:68-73 | with c observed and P(c) > 0, an empty box gets posterior 0 and the other box gets posterior 1 |
| InfoPanel.PosteriorOrderFollowsLikelihood | components/InfoPanel.tsx:48-73 | with c observed and P(c) > 0, posterior(Box 1) >= posterior(Box 2) exactly when P(c given Box 1) >= P(c given Box 2) |
| InfoPanel.DefaultBoxesRed | components/InfoPanel.tsx:55-73 | boxes 3/7 and 6/4 with red observed: likelihoods 0.3 and 0.6, P(Red) = 0.45, posteriors 1/3 and 2/3 |
| InfoPanel.DefaultBoxesBlue | components/InfoPanel.tsx:55-73 | boxes 3/7 and 6/4 with blue observed: likelihoods 0.7 and 0.4, P(Blue) = 0.55, posteriors 7/11 and 4/11 |
| InfoPanel.EmptyFirstBoxRed | components/InfoPanel.tsx:55-73 | an empty box beside a 5/5 box with red observed: likelihood 0, posteriors 0 and 1 |
| Box.Fill | components/Box.tsx:14-15 | for a valid array length n, `Array(n).fill(c)` has length n and every entry is c |
| Box.UnshuffledBalls | components/Box.tsx:13-15 | the reds-then-blues list exists exactly when both counts are valid array lengths (otherwise `Array(n)` throws), and then has length redCount + blueCount |
| Box.IsBallList | components/Box.tsx:13-16 | no ensures; a permutation of the unshuffled list, characterised by Box.BallListContents and Box.OversizedCountThrows |
| Box.OversizedCountThrows | components/Box.tsx:14-15 | a count below 0 or of 2^32 or more leaves no ball list: the box throws |
| Box.Highlight | components/Box.tsx:32 | no ensures; characterised by Box.NoEvidenceNoFlags and Box.EvidenceFlags |
| Box.Dim | components/Box.tsx:33 | no ensures; characterised by Box.NoEvidenceNoFlags and Box.EvidenceFlags |
| Box.FillMultiset | components/Box.tsx:14-15 | n balls of colour c hold n of c and none of the other colour |
| Box.BallListContents | components/Box.tsx:13-16 | every order the shuffle can produce comes from valid array lengths and has length redCount + blueCount, with exactly redCount reds and blueCount blues |
| Box.UnshuffledIsBallList | components/Box.tsx:13-16 | for valid array lengths, the reds followed by the blues is one of the possible ball lists |
| Box.Render | components/Box.tsx:28-34 | the drawn list has one entry per ball, with the ball's colour; with nothing observed no ball is highlighted or dimmed, and with c observed every ball carries exactly one flag, highlighted exactly when it is c |
| Box.NoEvidenceNoFlags | components/Box.tsx:32-33 | with nothing observed, no ball is highlighted or dimmed |
| Box.EvidenceFlags | components/Box.tsx:32-33 | with c observed, a ball is highlighted iff it is c and dimmed iff it is not, so it has exactly one of the two flags |
| Box.HighlightedCountIsMultiplicity | components/Box.tsx:32-33 | the number of highlighted balls is the number of balls of the observed colour, and 0 with nothing observed |
| Box.FlagsPartition | components/Box.tsx:32-33 | with a colour observed, the highlighted and dimmed balls together are all the balls |
| Box.NoDimWithoutEvidence | components/Box.tsx:33 | with nothing observed, no ball is dimmed |
| Box.HighlightedBalls | components/Box.tsx:13-35 | red observed: redCount balls highlighted and blueCount dimmed; blue observed: the reverse; nothing observed: none of either |
| JsParse.ParseInt | App.tsx:127 | a negative parse result comes only from text that starts with a minus sign |
| JsParse.EmptyIsNaN | App.tsx:127 | `parseInt('')` is NaN |
| JsParse.ParseNumeral | App.tsx:127 | a decimal numeral, followed by nothing or by text that does not start with a digit, parses to its value |
| JsParse.ParseNegativeNumeral | App.tsx:127 | a minus sign before such a numeral gives the negated value, so `-0` parses to 0 |
| JsParse.DecimalValue | App.tsx:127 | the digits of a numeral denote the number it was written from |
| JsParse.LeadingDigits | App.tsx:127 | the longest prefix of decimal digits: a prefix, all digits, and followed by a non-digit or nothing |
| JsParse.DigitsValue | App.tsx:127 | no ensures; the value of a digit string, characterised by JsParse.DecimalValue |
| JsParse.LeadingDigitsOfNumeral | App.tsx:127 | parsing keeps exactly the digits that come before the first non-digit |
| App.InitialState | App.tsx:112-116 | the literal of App.tsx:112-116 (counts 3/7 and 6/4); ensures nothing is observed and all four counts are non-negative integers |
| App.SetEvidence | App.tsx:118-120 | no ensures; characterised by App.SetEvidenceOverwrites |
| App.Reset | App.tsx:122-124 | no ensures; characterised by App.ResetClearsEvidence |
| App.ConfigChange | App.tsx:126-140 | no ensures; characterised by App.ConfigChangeAccepted, App.ConfigChangeRejected and App.ClearingKeepsCount |
| App.ObserveEnabled | components/InfoPanel.tsx:131-138 | no ensures; the buttons' enabled state, characterised by App.InitialStateValid, App.SetEvidenceOverwrites and App.ResetClearsEvidence |
| App.NumericCount | App.tsx:144-149 | no ensures; `Number(x) or 0`, characterised by App.NumericConfigOfValidCounts and App.BlankReadsAsZero |
| App.NumericBox | App.tsx:143-150 | no ensures; characterised by App.NumericConfigOfValidCounts |
| App.NumericConfig | App.tsx:142-151 | no ensures; characterised by App.NumericConfigOfValidCounts |
| App.WithCell | App.tsx:132-138 | the nested spread replaces the chosen (box, colour) cell and leaves the other three as they were |
| App.InitialStateValid | App.tsx:112-116 | the initial counts are non-negative integers, both boxes can be drawn, and nothing is observed, so the observe buttons are enabled |
| App.SetEvidenceOverwrites | App.tsx:118-120 | observing sets the evidence to the colour from any state, leaves the counts unchanged and disables the observe buttons |
| App.ResetClearsEvidence | App.tsx:122-124 | reset clears the evidence, leaves both boxes unchanged and enables the observe buttons again |
| App.ConfigChangeAccepted | App.tsx:126-138 | an edit that parses to n >= 0 sets exactly that (box, colour) cell to n; the other three cells and the evidence are unchanged |
| App.ConfigChangeRejected | App.tsx:127-131 | an edit that parses to a negative number or NaN leaves the whole state unchanged |
| App.ClearingKeepsCount | App.tsx:127-136 | an edit to the empty string leaves the state unchanged, so the blank alternative is never written |
| App.ConfigChangeNeverBlank | App.tsx:126-139 | after an edit the edited cell is unchanged or holds a non-negative integer |
| App.StepKeepsCountsValid | App.tsx:118-139 | every action keeps all four counts non-negative integers |
| App.RunKeepsCountsValid | App.tsx:118-139 | any sequence of actions keeps all four counts non-negative integers |
| App.ReachableCountsValid | App.tsx:112-139 | from the initial state, every sequence of actions leaves all four counts non-negative integers |
| App.NumericConfigOfValidCounts | App.tsx:142-151 | on valid counts, `getNumericConfig` returns each stored count unchanged, so all four are non-negative |
| App.BlankReadsAsZero | App.tsx:144 | an empty stored value would be read as 0 |
| App.BoxesDrawable | App.tsx:167-178 | no ensures; both boxes receive counts that are valid array lengths, characterised by App.EditKeepsBoxesDrawable |
| App.EditKeepsBoxesDrawable | App.tsx:126-138 | from drawable boxes, an edit keeps both boxes drawable exactly when it does not parse to a number of 2^32 or more |
| App.OversizedEditBreaksBox | App.tsx:126-138 | typing the numeral of 2^32 into any count field stores that count and leaves the boxes undrawable |
| App.ResetRestoresPriors | App.tsx:122-124 | after a reset, the calculator's posteriors are the priors 1/2 and 1/2 |
| App.ReachableReportInUnit | App.tsx:182-188 | in every reachable state, the marginals and posteriors the panel receives lie in [0, 1] |
| App.AppComponent.constructor | App.tsx:112-116 | the component starts in the initial state, which satisfies the count invariant |
| App.AppComponent.HandleSetEvidence | App.tsx:118-120 | the new state is `SetEvidence` of the old one, and the count invariant is kept |
| App.AppComponent.HandleReset | App.tsx:122-124 | the new state is `Reset` of the old one, and the count invariant is kept |
| App.AppComponent.HandleConfigChange | App.tsx:126-140 | the new state is `ConfigChange` of the old one, and the count invariant is kept |
| App.AppComponent.GetNumericConfig | App.tsx:142-151 | returns the numeric view of the stored counts, which is non-negative while the invariant holds |

## Left out

- Rendering is not modelled: the JSX layout, the CSS classes, `CalculationCard` and `ProbabilityRow`, the fraction strings such as "3/10", `Ball.tsx`'s style choice, and the configuration text inputs.
- `formatPercent` (components/InfoPanel.tsx:12-15) is not modelled. It formats floating point with `toFixed`, and a model over `real` has no `NaN` for it to map to 0.
- The order of the balls is not modelled. The shuffle's random comparator (components/Box.tsx:16) is nondeterministic, so a ball list is any arrangement of the right multiset (`Box.IsBallList`).
- IEEE-double rounding is not modelled. Every probability is an exact `real`, so the identities hold exactly where the page's doubles only approximate them.
- `parseInt` is only partly modelled. Leading whitespace skipping and radices other than 10 are left out; the page's number inputs do not produce them. Long numerals are reachable, and the model reads them exactly: the loss of precision above 2^53 and the `Infinity` of an overlong numeral are not modelled.
- The RangeError that `Array(n)` throws for a count of 2^32 or more is modelled as the `None` of `Box.UnshuffledBalls`, and such counts are reachable (`App.OversizedEditBreaksBox`). What React then does (with no error boundary, it unmounts the whole page) is not modelled. The engine in `InfoPanel` treats such counts as ordinary counts. Negative counts would throw too, but no reachable state holds one (`App.ReachableCountsValid`).
- Memory and engine limits are not modelled. `Box.UnshuffledBalls` and `App.BoxesDrawable` mean only that `Array(n)` does not throw a RangeError; a valid count in the billions (say 4294967295, which the change handler accepts) still leaves the page unable to build the balls and their components (components/Box.tsx:13-35).
- Box.UnshuffledBalls: ensures the spread list has length redCount + blueCount even when that sum reaches 2^32; JavaScript's array indices stop at 2^32 - 1, so the spread at components/Box.tsx:13-15 cannot hold that many elements. The model treats the list as unbounded.
- The React hook and re-render machinery is not modelled: the handlers are state transitions applied one at a time. The `types` module is not part of this model. `BallColor` is taken to be red or blue, as components/Ball.tsx:11-14 implies.
- No explanation service is called from the files modelled here, so none is modelled.
