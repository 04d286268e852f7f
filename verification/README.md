# Card benefit demo calculator — a Dafny model

The card-value-analyzer website has an interactive demo. A visitor fills a form with a card type, a persona, a location, three lifestyle sliders, a language and the last four digits of a card number. The results panel then shows a mock analysis: a confidence score with the factors behind it, a primary benefit picked by a first-match rule table, and an estimated annual value with a four-line breakdown. The confidence meter colours the score High, Medium or Low.

This project models that logic in three modules:

- `BenefitInput` (`form.dfy`) models the form. It holds the `InputData` record, the option tables and the card-number sanitiser and mask. The form's state cell is the class `BenefitForm`. Each handler replaces its `data` with a copy that changes one field, using a pure updater function (`WithSlider`, `WithCardType`, …).
- `ConfidenceMeter` (`meter.dfy`) holds the three-way level classifier.
- `Results` (`results.dfy`) holds the benefit calculation. The methods `AdjustConfidence`, `DeterminePrimaryBenefit` and `EstimateValue` follow the three commented sections of the calculator. Each builds its part step by step, as the source does. `CalculateBenefits` puts the parts together and is proved equal to the specification function `BenefitsOf`. Three parts of `BenefitsOf` are formulated independently of the calculator's code:
  - the factor list is described by membership and order (`ProfileFactors`), and the score is a fold over the tags' weights (`TagWeights`);
  - the primary benefit is the first qualifying rule of a table (`Recommended`, `FirstQualifying`).

  The value parts (`GrossValue`, `Breakdown`) use the calculator's own expressions. What the lemmas add about them is that every amount is exact, the breakdown adds up, and the bounds.

Money is counted in integers. The card multiplier 1, 1.5 or 2 is written as 2, 3 or 4 halves. `Math.round(n / 2)` becomes `(n + 1) / 2` with floor division, so a half rounds up, as in JavaScript. For integer sliders no rounding ever happens. So the four breakdown lines always add up exactly to the estimated value (`BreakdownAddsUp`). A mismatch between them could only come from fractional slider values, which the slider never produces. The 95 cap on the confidence is never reached: the score stays between 65 and 88 (`CapNeverFires`).

## Model

| member | source | states |
|---|---|---|
| `BenefitInput.OptionTables` | src/components/demo/BenefitInputPanel.tsx:64-84 | 5 card types, 4 personas and 4 locations; within each table all values are distinct, and none is the empty "unselected" value |
| `BenefitInput.StripNonDigits` | src/components/demo/BenefitInputPanel.tsx:137 | removing `\D`: the result has only digits, is no longer than the input, and keeps every digit character of the input |
| `BenefitInput.StripNonDigitsKeepsDigits` | src/components/demo/BenefitInputPanel.tsx:137 | a string made only of digits comes through unchanged |
| `BenefitInput.StripNonDigitsAppend` | src/components/demo/BenefitInputPanel.tsx:137 | stripping distributes over concatenation, so the digits kept keep their original order |
| `BenefitInput.SanitizeCardNumber` | src/components/demo/BenefitInputPanel.tsx:137 | the stored card number is digits only, at most 4, and is the first min(4, #digits) digits of the input in order |
| `BenefitInput.SanitizeFixedPoints` | src/components/demo/BenefitInputPanel.tsx:137-138 | the sanitiser leaves a value unchanged exactly when the value is already at most four digits |
| `BenefitInput.SanitizeIdempotent` | src/components/demo/BenefitInputPanel.tsx:137-138 | sanitising a sanitised value changes nothing |
| `BenefitInput.FormatCardNumber` | src/components/demo/BenefitInputPanel.tsx:107-111 | "" exactly when the input has no digit; otherwise "**** **** **** " followed by the sanitised digits, so 16 to 19 characters |
| `BenefitInput.MaskShowsOnlySanitizedDigits` | src/components/demo/BenefitInputPanel.tsx:107-111 | the only digits a masked display contains are the first up-to-four digits of the input |
| `BenefitInput.FormatAfterSanitize` | src/components/demo/BenefitInputPanel.tsx:142-145 | masking the stored (already sanitised) number shows the same text as masking the raw input |
| `BenefitInput.WithSlider` | src/components/demo/BenefitInputPanel.tsx:98-100 | the named slider gets the new value and every other field of the record is unchanged |
| `BenefitInput.WithCardNumber` | src/components/demo/BenefitInputPanel.tsx:136-139 | the card number becomes the first min(4, number of digits) digits of the input, in order; every other field is unchanged |
| `BenefitInput.WithCardType` | src/components/demo/BenefitInputPanel.tsx:154 | the card type becomes the chosen value; every other field is unchanged |
| `BenefitInput.WithPersona` | src/components/demo/BenefitInputPanel.tsx:191 | the persona becomes the chosen value; every other field is unchanged |
| `BenefitInput.WithLocation` | src/components/demo/BenefitInputPanel.tsx:219 | the location becomes the chosen value; every other field is unchanged |
| `BenefitInput.WithLanguage` | src/components/demo/BenefitInputPanel.tsx:331-342 | the English button stores exactly "english", the Tamil button exactly "tamil"; every other field is unchanged |
| `BenefitInput.SliderUpdatesCommute` | src/components/demo/BenefitInputPanel.tsx:98-100 | moving two different sliders gives the same record in either order |
| `BenefitInput.SliderLastWins` | src/components/demo/BenefitInputPanel.tsx:98-100 | moving one slider twice keeps only the last value |
| `BenefitInput.BenefitForm.constructor` | src/components/demo/BenefitInputPanel.tsx:87-96 | the initial form has empty card number, card type, persona and location, all sliders at 50, language "english", and satisfies the form invariant |
| `BenefitInput.BenefitForm.ChangeSlider` | src/components/demo/BenefitInputPanel.tsx:257-261 | the form holds the old record with the slider set to the first thumb value, and stays within what the controls can produce |
| `BenefitInput.BenefitForm.EditCardNumber` | src/components/demo/BenefitInputPanel.tsx:136-139 | the form holds the old record with the sanitised card number |
| `BenefitInput.BenefitForm.SelectCardType` | src/components/demo/BenefitInputPanel.tsx:152-155 | the form holds the old record with the chosen card type from the table |
| `BenefitInput.BenefitForm.PickPersona` | src/components/demo/BenefitInputPanel.tsx:187-191 | the form holds the old record with the clicked persona from the table |
| `BenefitInput.BenefitForm.SelectLocation` | src/components/demo/BenefitInputPanel.tsx:217-219 | the form holds the old record with the chosen location from the table |
| `BenefitInput.BenefitForm.PressLanguage` | src/components/demo/BenefitInputPanel.tsx:329-342 | the form holds the old record with the language of the pressed button |
| `ConfidenceMeter.GetConfidenceLevel` | src/components/demo/ConfidenceMeter.tsx:52-56 | High/"confidence-high"/"text-success" exactly when val ≥ 70, Medium/"confidence-medium"/"text-warning" exactly when 40 ≤ val < 70, Low/"confidence-low"/"text-destructive" exactly when val < 40; so every value has exactly one level |
| `ConfidenceMeter.LevelMonotone` | src/components/demo/ConfidenceMeter.tsx:52-56 | a higher score never shows a lower level (Low < Medium < High) |
| `ConfidenceMeter.LabelDeterminesLevel` | src/components/demo/ConfidenceMeter.tsx:53-55 | label, colour and text class never mix across levels: the label fixes the other two |
| `Results.ProfileFactors` | src/components/demo/ResultsPanel.tsx:48-62 | "Card Type Match", "Lifestyle Fit" and "Regional Data" appear exactly for the non-empty card type, persona and location, at most three, in that order |
| `Results.ConfidenceCountsFactors` | src/components/demo/ResultsPanel.tsx:46-62 | the uncapped score is 65 plus the bonuses (10, 8, 5) of exactly the factors listed |
| `Results.FirstQualifying` | src/components/demo/ResultsPanel.tsx:72-96 | the index picked by the rule chain qualifies and no earlier rule does (or none qualifies) |
| `Results.RecommendedByPriority` | src/components/demo/ResultsPanel.tsx:65-96 | Travel Insurance iff travel > 60 or persona "traveler"; else Dining Rewards iff dining > 60 or "foodie"; else Shopping Rewards iff shopping > 60 or "shopper"; else Purchase Protection |
| `Results.Multiplier` | src/components/demo/ResultsPanel.tsx:103 | the multiplier is 2 exactly for "infinite", 1.5 exactly for "signature", and 1 for every other card type |
| `Results.RoundHalf` | src/components/demo/ResultsPanel.tsx:105 | Math.round of n/2 is the integer r with n = 2r or n = 2r − 1 (nearest, halves up) |
| `Results.AdjustConfidence` | src/components/demo/ResultsPanel.tsx:46-62 | the running score and the factor list after the three completeness checks are the profile score and the profile factors |
| `Results.DeterminePrimaryBenefit` | src/components/demo/ResultsPanel.tsx:64-96 | the chain ends with the first-match benefit of the rule table and appends exactly that benefit's tag (none for the default) |
| `Results.EstimateValue` | src/components/demo/ResultsPanel.tsx:98-117 | the estimate is the rounded weighted sum times the multiplier; the breakdown is the four terms, each rounded on its own |
| `Results.CalculateBenefits` | src/components/demo/ResultsPanel.tsx:45-119 | the step-by-step calculation returns exactly the specified result |
| `Results.CapNeverFires` | src/components/demo/ResultsPanel.tsx:108 | the min with 95 never changes the score, which stays within 65..88 |
| `Results.FactorsShape` | src/components/demo/ResultsPanel.tsx:48-96 | the factors are the completeness tags followed by the chosen benefit's tag; the tag is absent exactly for Purchase Protection; at most 4 factors |
| `Results.TravelDominates` | src/components/demo/ResultsPanel.tsx:72-79 | whenever travel > 60, the benefit is Travel Insurance and "High Travel Score" ends the factors, whatever dining, shopping or persona |
| `Results.LocationOnlyAffectsConfidence` | src/components/demo/ResultsPanel.tsx:59-105 | changing the location changes neither the benefit, nor the estimate, nor the breakdown |
| `Results.BreakdownAddsUp` | src/components/demo/ResultsPanel.tsx:105-117 | every amount is exact (twice the amount equals component times multiplier in halves), so the four lines sum to the estimate |
| `Results.EstimateBounds` | src/components/demo/ResultsPanel.tsx:99-105 | with sliders in 0..100 the estimate lies in 12000..90000 |
| `Results.FormEstimateBounds` | src/components/demo/BenefitInputPanel.tsx:257-305 | for any record the form's controls can produce, the estimate lies in 12000..90000 |
| `Results.DefaultFormResult` | src/components/demo/ResultsPanel.tsx:46-105 | the initial form yields confidence 65, no factors, Purchase Protection and 28500 |
| `Results.InfiniteCardAtZero` | src/components/demo/ResultsPanel.tsx:99-117 | all sliders 0 on "infinite": estimate 24000, breakdown 0, 0, 0, 24000 |
| `Results.SignatureCardAtFull` | src/components/demo/ResultsPanel.tsx:99-105 | all sliders 100 on "signature": estimate 67500 |
| `Results.MeterLevelOfResult` | src/components/demo/ConfidenceMeter.tsx:52-56 | the meter shows a result's score as High when any profile field is filled in and Medium otherwise, never Low |

## Left out

- Markup, styling, icons of the persona buttons and every landing or layout component: display only.
- The header's mobile menu and active-route highlight, and the demo page's results/form view switch with its `window.scrollTo`: routing and browser state.
- The meter's timer-driven animation and the arc geometry, which uses `Math.PI` and floating point.
- Currency display through `toLocaleString("en-IN")`, a library call. The summary sentence below the results is display text.
- `handleSubmit`: it only prevents the browser default and passes the current record to the page's callback. That callback is outside this model; the record it receives is `BenefitForm.data`.
- Sliders hold `int`, not JavaScript numbers. The slider only produces multiples of 5 between 0 and 100. The IEEE-754 noise of `x / 100 * k` is not modelled. For such values, `Math.round` gives the exact integers this model computes.
- `BenefitInput.BenefitForm.ChangeSlider`: the source's handler accepts any field name. The model takes only the three slider names, which are the only names the sliders pass.
- `BenefitInput.BenefitForm.SelectCardType`, `PickPersona` and `SelectLocation` require a value from their table, because the select lists and persona buttons only offer those. The pure updaters accept any string.
- `ConfidenceMeter.GetConfidenceLevel` takes an exact `real` instead of a double.
- Icons on the primary benefit and on the breakdown lines are kept as an `Icon` tag. Their rendering is not modelled.
