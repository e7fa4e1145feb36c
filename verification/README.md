# Look-Write-Learn drawing scorer, modelled in Dafny

This project models the decision logic behind the handwriting practice
backend. The backend scores a child's drawing against a target letter or
digit and returns four things:

- an integer score;
- an encouragement message;
- an accuracy tier;
- a list of tips.

The model follows the scoring path of `backend/app.py`:

- **Mask** (`mask.dfy`): the inverted global threshold at grey level 127, and the count of ink cells.
- **Shape** (`shape.dfy`): the measurement of one drawing. It holds the ink count, the number of cells and the traced contours. It also chooses the main contour (the first one of maximal area) and computes the coverage, solidity and aspect ratios, including their division guards.
- **Letters** (`letters.dfy`): the letter-class adjustment. Class membership is checked on the upper-cased symbol (tall `I L T 1`, round `O Q C D 0`, wide `M W`, tried in that order). The dot bonus matches `"i"`/`"j"` exactly.
- **Reference** (`reference.dfy`): the same bands written with whole numbers only. Every comparison of a ratio with a decimal constant is cross-multiplied.
- **Scoring** (`scoring.dfy`): the additive score. It starts from a base of 50 and adds the coverage, solidity and letter bonuses, capped at 95. It is 0 when no contour was traced and 50 when measuring raises an exception. Lemmas prove the ratio-based score equal to the whole-number reference.
- **Feedback** (`feedback.dfy`): the message, the accuracy tier and the tips for a score.
- **Scenarios** (`scenarios.dfy`): worked drawings scored end to end.

### How the model represents the inputs

The contour library's results are inputs. A `ContourStats` value holds one contour's area and hull area, both doubled so that they are whole numbers, and its bounding-box width and height. A `Measurement` is either `Failed`, meaning a library call raised, or `Measured(ink, pixels, contours)`.

A canvas with zero cells also scores 50. In the code, the coverage division comes before the contour check, so a zero-cell canvas raises an exception.

The three ratios are exact Dafny `real`s, in place of the source's floating-point divisions.

### Behaviour worth knowing

- A dotted "i" also earns the tall-class bonus, because `'i'.upper()` is `'I'`. A thin stem with a separate dot scores 85, and a stem at least half as wide as it is high scores 75 (`Scenarios.StemAndDotForI`, `Scenarios.SquatStemAndDotForI`).
- `get_tips` always returns at least one tip.
- The source file stores the emoji of the feedback messages double-encoded. The messages are modelled with the exact code points the file holds.

## Model

| member | source | states |
|---|---|---|
| Mask.ToMask | backend/app.py:101 | the inverted threshold keeps the image's shape, yields only 0 and 255, and a cell is ink exactly when its grey level is at most 127 |
| Mask.Size | backend/app.py:104 | the cell count (`binary.size`) is at least every row's length, and zero exactly when every row is empty |
| Mask.NonZero | backend/app.py:104 | the count of non-zero mask cells never exceeds the mask's size, so coverage is at most one |
| Mask.RowNonZeroSplits | backend/app.py:104 | counting non-zero cells of two pieces of a row separately adds up to the count of the whole row |
| Mask.NonZeroSplits | backend/app.py:104 | counting non-zero cells of two bands of rows separately adds up to the count of the whole mask |
| Mask.InkCountSplitsRows | backend/app.py:101-104 | the ink of an image stacked from two bands is the sum of their ink |
| Mask.InkCountSplitsColumns | backend/app.py:101-104 | the ink of a row made of two pieces is the sum of their ink |
| Mask.InkCountOfCell | backend/app.py:101-104 | one cell counts as one unit of ink exactly when its grey level is at most 127; with the two splitting lemmas this fixes the ink count as the number of such cells |
| Mask.InkCount | backend/app.py:101-104 | the ink count of a grey image never exceeds its number of cells |
| Mask.NoInkIffBlank | backend/app.py:101-104 | the ink count is zero exactly when every grey level is above 127 (a blank canvas) |
| Mask.SizeOfRectangle | backend/app.py:104 | an image of equal-length rows has rows times width cells, the `binary.size` of the division |
| Mask.NonZeroIsZero | backend/app.py:104 | no cell is counted exactly when every mask cell is zero |
| Shape.Measure | backend/app.py:101-107 | the measurement's cell count is the image's size and its ink is the image's ink count, so coverage is ink cells over all cells; it keeps the traced contours, never reports more ink than cells, and reports no ink exactly for a blank canvas |
| Shape.MainIndex | backend/app.py:113 | the main contour has maximal area and every contour before it is strictly smaller (Python's `max` keeps the first maximum) |
| Shape.FirstLargestIsUnique | backend/app.py:113 | only one index is the first of maximal area, so the choice of main contour is determined |
| Shape.Coverage | backend/app.py:104 | coverage times the number of cells is the ink count; it lies in [0, 1] when ink does not exceed the cells |
| Shape.Solidity | backend/app.py:116-121 | an empty hull gives solidity 0 rather than a division; otherwise solidity times hull area is the contour area, and it is at most 1 when the hull is no smaller |
| Shape.AspectRatio | backend/app.py:124-125 | a box with no height has aspect ratio exactly 1; otherwise the ratio times the height is the width |
| Letters.UpperChar | backend/app.py:163 | a lower-case ASCII letter becomes its capital; the result is an ASCII capital exactly when the input was an ASCII letter or the dotless i; every other character is unchanged |
| Letters.Upper | backend/app.py:163-173 | upper-casing keeps the length, maps each character, and leaves no lower-case ASCII letter and no dotless i |
| Letters.Fits | backend/app.py:164-175 | only a classed symbol can fit; an aspect ratio of exactly 1 (the value for a box with no height) fits the round class and no other |
| Letters.ClassWindows | backend/app.py:164-175 | no aspect ratio is both tall and round, or both tall and wide; 1.25 is both round and wide |
| Letters.ClassOf | backend/app.py:163-173 | a symbol is tall, round or wide exactly when it is one character and that character, in either case, is in the class's list; the classes exclude one another |
| Letters.ClassIgnoresCase | backend/app.py:163-173 | upper-casing the symbol first never changes its class |
| Letters.LetterBonus | backend/app.py:156-182 | the bonus is 0, 10, 15 or 25; 15 or more exactly for "i"/"j" with more than one contour; 10 or 25 exactly when the aspect ratio suits the class; 0 for any symbol outside all classes |
| Letters.DottedTallSymbolGetsBoth | backend/app.py:163-180 | "i" can earn both the tall-class and the dot bonus, 25 in all |
| Letters.DotBonusIsCaseSensitive | backend/app.py:178-180 | "I" and "J" never receive the dot bonus |
| Scoring.CoverageBonus | backend/app.py:131-135 | 20 exactly inside (0.1, 0.5); any bonus only inside (0.05, 0.7); at least 10 there; the bands are never added |
| Scoring.SolidityBonus | backend/app.py:137-141 | 15 exactly above 0.7, a bonus exactly above 0.5, never both added |
| Scoring.Similarity | backend/app.py:88-154 | the score lies in [0, 95]; it is 0 exactly when a non-empty canvas has no contour; a raised measurement or a zero-cell canvas gives 50; any drawing with contours scores at least 50 |
| Scoring.CoverageBonusMatchesCounts | backend/app.py:104-135 | the coverage bonus of ink/pixels equals the whole-number bands compared by cross-multiplication |
| Scoring.SolidityBonusMatchesAreas | backend/app.py:116-141 | the solidity bonus equals the cross-multiplied bands on the areas, and an empty hull earns nothing |
| Scoring.FitsMatchesBox | backend/app.py:124-175 | the aspect-ratio class test equals the cross-multiplied box test; a box with no height counts as square |
| Scoring.ScoreFromFirstLargest | backend/app.py:109-150 | for any non-empty drawing, the score is min(50 + coverage + solidity + letter bonuses, 95) computed on the first largest contour in whole numbers |
| Feedback.Message | backend/app.py:184-197 | the message is always one of the six, and the fallback below 50 |
| Feedback.MessageOfFirstThresholdMet | backend/app.py:186-197 | the message is the one of the first threshold, tried from 90 down to 50, that the score reaches, or the fallback |
| Feedback.MessagesDistinct | backend/app.py:187-197 | the six messages are pairwise different |
| Feedback.Tier.Label | backend/app.py:199-208 | the tier names, listed from the worst tier to the best, are "needs_practice", "fair", "good" and "excellent" |
| Feedback.LabelsDistinct | backend/app.py:199-208 | different tiers are reported under different names |
| Feedback.AccuracyLevel | backend/app.py:199-208 | the tier is at least fair, good or excellent exactly when the score reaches 60, 75 or 90 |
| Feedback.AccuracyMonotone | backend/app.py:199-208 | a higher score never earns a lower tier |
| Feedback.FollowTip | backend/app.py:215 | the first tip contains the target symbol right after the opening quote |
| Feedback.Tips | backend/app.py:210-225 | the list is never empty: below 70 it starts with the tip naming the symbol and the draw-slower tip, below 50 these are followed by the look-first and take-your-time tips, and from 70 it is only the encouragement |
| Feedback.TipsGrowAsScoreFalls | backend/app.py:214-220 | below 70, a lower score's tips extend a higher score's tips |
| Scenarios.TallStrokeForI | backend/app.py:129-150 | a thin upright "I" with coverage 0.2 and solidity 0.8 scores the capped 95, tier excellent |
| Scenarios.SquareRingForO | backend/app.py:129-150 | a square "O" with coverage 0.3 and solidity 0.6 scores 90 |
| Scenarios.StemAndDotForI | backend/app.py:129-182 | a thin-stemmed dotted "i" with coverage 0.08 and solidity 0.4 scores 85 |
| Scenarios.SquatStemAndDotForI | backend/app.py:129-182 | the same "i" with a wider stem scores 75 |
| Scenarios.BlankCanvasForA | backend/app.py:109-110 | a canvas with no contour scores 0, with the fallback message, the lowest tier and all four tips |

## Left out

- The HTTP endpoints, JSON handling, base64 and image decoding, and logging (`backend/app.py:1-86`, `226-229`) are transport glue. This includes the route that combines the score with its message, tier and tips.
- The RGB-to-grey conversion (`cv2.cvtColor`) is a library call. The mask is modelled from a grey image.
- `cv2.findContours`, `cv2.convexHull`, `cv2.contourArea` and `cv2.boundingRect` are library geometry. Their results are inputs in `ContourStats`, and a raise from any of them is the `Failed` measurement.
- Floating-point rounding is not modelled. The divisions and comparisons are exact rationals. For canvases and areas of realistic size, no quotient lies close enough to 0.05, 0.1, 0.5, 0.7, 1.2 or 1.3 for double rounding to change a comparison. That claim is argued, not proved.
- Python's full Unicode upper-casing is reduced to ASCII letters plus the dotless i (U+0131 upper-cases to "I"). As far as is known, no other character upper-cases to a class letter, and a string of more than one character never upper-cases to one character. Other characters keep their own code point in the model.
- A target letter that is not a string would raise inside the letter bonus and score 50, but only when at least one contour was traced; with no contour the code returns 0 before it reads the letter (`backend/app.py:109-110`). The model takes the symbol as a string, so this case is not modelled separately.
- The `mode` argument is accepted but never read by the scoring code, so it is not modelled.
- The neural classifier (`backend/ml_model.py`) is never called by the scoring path. Template generation (`backend/generate_templates.py`) and the HTTP test client (`backend/test_api.py`) are also outside the scoring logic.
