# Lionheart scoring pipeline, modelled in Dafny

Lionheart scores a personality test submitted through a web form. A `User`
first loads a scoring key. The key is a text file of lines
`number|description|key|trait|min`, and each line becomes a rule stored under
its question number. The `User` then takes a decoded form submission. Answers
0, 1 and 2 give the respondent's name, email and phone. Every later answer is
multiplied by the weight (`key`) of its rule and added to that rule's
sub-trait, such as `E1`. Sub-traits are rolled up into traits by their first
letter, with a per-letter floor table. Both levels are normalised against
their floors.

The repository has two near-identical versions of this pipeline:

- `lionheart.go` is modelled by module `Lionheart`. It scores answer i
  (counted from 0 after the identity answers) by the rule for question i + 1.
  It rounds half-to-even: `6.25 * (raw - min)` for sub-traits and
  `(100 / 96.0) * (raw - min)` for traits.
- `process.go` is modelled by module `Process`. It scores answer i by the rule
  for question i. It does not round sub-trait scores. Its trait scale
  `100 / 96` is Go integer-constant division, so it equals 1.

Shared modules:

- `Text` models `strings.Split` and `strconv.Atoi` with its error discarded.
  `Atoi` reads back what `Itoa` writes; `Split` undoes `Join` on
  separator-free fields.
- `ScoringKey` holds key-line parsing and the key map. Both files parse
  identically (lionheart.go:97-110, process.go:96-109).
- `Scores` holds the specifications the methods are proved against:
  - the sub-trait accumulation `SubtraitScores`;
  - an order-free roll-up into traits, `TraitScores`, built on a set sum;
  - the floor table `GetMin`;
  - `RoundHalfEven`.

Each variant's `User` is a class with the Go struct's fields. Its methods
update those fields, and each method's postcondition states the new state in
terms of the specification functions. A `*Trait` in a Go map is modelled as
a `Trait` value in a Dafny map. Each pointer is allocated fresh and is
reachable only through its own map entry, so writing through it is the same
as replacing that entry.

Modelling choices that keep the code's behaviour as written:

- A submission with fewer than three answers makes the code index out of
  range. The model makes that a precondition rather than a decoding error.
- A later key line with an existing number replaces the earlier rule.
- Floors are `Atoi` results, so they are integers.
- Both lookup offsets and both normalisations are kept as written.
  `Scores.LookupShift` states the exact relation between the two offsets.

## Model

| member | source | states |
|---|---|---|
| `Text.Split` | lionheart.go:97 | There is one more field than separators. No field contains the separator. Joining the fields with the separator gives the line back. |
| `Text.SplitJoin` | lionheart.go:97 | Splitting joined separator-free fields returns exactly those fields. |
| `Text.Atoi` | lionheart.go:98-100 | Text that is not an optionally signed run of digits reads as 0, because the error is discarded. A leading '-' gives a result of at most 0. Otherwise the result is at least 0. |
| `Text.AtoiItoa` | lionheart.go:98-100 | `Atoi` reads back every integer that `Itoa` writes. |
| `ScoringKey.ParseLine` | lionheart.go:97-108 | The description and trait of the rule contain no separator. A number, key or min field that does not parse gives 0. |
| `ScoringKey.ParseFormatLine` | lionheart.go:97-108 | Parsing is exact: the line written from a rule (with no separator in its text fields) parses back to the same number, description, key, trait and min. |
| `ScoringKey.ExtraFieldsIgnored` | process.go:96-107 | Fields after the fifth do not change the parsed rule. |
| `ScoringKey.Load` | lionheart.go:94-111 | Every rule in the loaded key is filed under its own number. |
| `ScoringKey.LoadKeys` | lionheart.go:110 | A number is in the key if and only if some line's rule carries it. |
| `ScoringKey.LoadLastWins` | process.go:109 | The entry for a number is the rule from the last line that carries that number. |
| `ScoringKey.LoadAppend` | lionheart.go:110 | One more line adds its number to the keys and leaves every other entry unchanged. |
| `Scores.RuleAt` | lionheart.go:136-140 | The lookup returns the stored rule. A missing question number gives the zero rule, whose empty trait scores nothing. |
| `Scores.SubtraitScores` | lionheart.go:142-154 | Every sub-trait is filed under its own non-empty name, and its normal score starts at 0. |
| `Scores.SubtraitKeys` | lionheart.go:136-145 | A sub-trait exists if and only if its name is non-empty and the rule of some scored answer names it. |
| `Scores.SubtraitRawScore` | lionheart.go:142-147 | A sub-trait's raw score is the sum of key * answer over the scored answers whose rule names it. A name that never occurs sums to 0. |
| `Scores.SubtraitFloor` | lionheart.go:144-150 | A sub-trait's min is the min of the first rule that names it. |
| `Scores.SameRulesSameScores` | lionheart.go:134-136 | The scores depend only on the rule used at each scored position. |
| `Scores.LookupShift` | process.go:135 | Scoring answer i by rule i + 1 gives the same result as scoring it by rule i in the key renumbered one lower. |
| `Scores.Letter` | lionheart.go:172 | A sub-trait's trait letter is the one-character string of its first character. |
| `Scores.RawSumRemove` | lionheart.go:170-175 | A trait's summed raw score does not depend on the order in which the sub-traits are visited. |
| `Scores.RawSumInsert` | lionheart.go:170-175 | Visiting one more sub-trait adds its raw score to its own letter's sum and leaves every other letter's sum unchanged. |
| `Scores.TraitsOverInsert` | lionheart.go:172-183 | Visiting one more sub-trait either adds its raw score to its letter's trait or creates that trait with the letter's floor. All other traits are unchanged. |
| `Scores.TraitRawScoreExample` | process.go:164-185 | Sub-traits E1 (raw 5) and E2 (raw 3) roll up to trait E with raw 8 and floor 6. |
| `Scores.GetMin` | lionheart.go:221-237 | The floor is A -66, C -36, E 6, N -66, O -78, and 0 for every other letter. |
| `Scores.RoundHalfEven` | lionheart.go:161 | The result is within 1/2 of its argument, and it is even when the argument lies exactly halfway. |
| `Scores.RoundHalfEvenUnique` | lionheart.go:193 | Any integer with those two properties is the rounding. |
| `Lionheart.SubtraitNormal` | lionheart.go:160-161 | A sub-trait's normal score is 6.25 * (raw - min) rounded half-to-even: an integer within 1/2 of it, the even one at an exact tie. |
| `Lionheart.TraitNormal` | lionheart.go:192-193 | A trait's normal score is (100/96) * (raw - min) rounded half-to-even: an integer within 1/2 of it, the even one at an exact tie. |
| `Lionheart.NormalExamples` | lionheart.go:157-164 | Sample values: 6.25 * 4 gives 25. A tie at 12.5 gives 12. 43.75 gives 44. (100/96) * 24 gives 25. (100/96) * 1 gives 1. |
| `Lionheart.EndToEndExample` | lionheart.go:134-186 | Rules 1 and 2 weight sub-trait E by 2 and 1. Answers 3 and 1 give sub-trait E a raw score of 7, and trait E gets raw 7 with floor 6. |
| `Lionheart.User.constructor` | lionheart.go:15-22 | A new `User` has empty fields and satisfies the sub-trait invariant. |
| `Lionheart.User.LoadQuestionsFromFile` | lionheart.go:83-118 | The key becomes `Load` of the lines. No other field changes. |
| `Lionheart.User.ProcessSubtraits` | lionheart.go:120-155 | A payload that fails to decode changes nothing. Otherwise name, email and phone come from answers 0-2, and the sub-traits become `SubtraitScores` of the remaining answers, with rule offset 1. |
| `Lionheart.User.NormalizeSubtraits` | lionheart.go:157-164 | Only each sub-trait's normal score changes. It becomes `SubtraitNormal(raw, min)`, and the set of sub-traits stays the same. |
| `Lionheart.User.ProcessTraits` | lionheart.go:166-187 | The traits become `TraitScores` of the sub-traits, whatever the visiting order. |
| `Lionheart.User.NormalizeTraits` | lionheart.go:189-196 | Only each trait's normal score changes. It becomes `TraitNormal(raw, min)`, and the set of traits stays the same. |
| `Process.SubtraitNormal` | process.go:159-160 | The unrounded score 6.25 * (raw - min) lies on the quarter-point grid. The lionheart.go score is exactly its round-half-to-even. |
| `Process.TraitNormal` | process.go:190-191 | The normal score equals raw - min, because the scale 100 / 96 is 1. |
| `Process.SubtraitNormalExamples` | process.go:156-162 | Sample values stay unrounded: 25, 12.5 and 43.75. |
| `Process.TraitScaleCounterexample` | process.go:190 | For raw 30 and floor 6 the model gives 24. Real division gives 25, which is what the lionheart.go variant returns. |
| `Process.User.constructor` | process.go:14-21 | A new `User` has empty fields and satisfies the sub-trait invariant. |
| `Process.User.LoadQuestionsFromFile` | process.go:82-117 | The key becomes `Load` of the lines. No other field changes. |
| `Process.User.ProcessSubtraits` | process.go:119-154 | A payload that fails to decode changes nothing. Otherwise name, email and phone come from answers 0-2, and the sub-traits become `SubtraitScores` of the remaining answers, with rule offset 0. |
| `Process.User.NormalizeSubtraits` | process.go:156-162 | Only each sub-trait's normal score changes. It becomes the unrounded 6.25 * (raw - min). |
| `Process.User.ProcessTraits` | process.go:164-185 | The traits become `TraitScores` of the sub-traits, whatever the visiting order. |
| `Process.User.NormalizeTraits` | process.go:187-195 | Only each trait's normal score changes. It becomes raw - min. |

## Left out

- Reading the key file is not modelled: `os.Open`, `os.Getenv`, `bufio.Scanner`, and `log.Fatal` on a missing or unreadable file. The loader takes the lines already read.
- JSON decoding (`json.Unmarshal`) is a library call. A payload is either `Malformed` or the decoded answers. Of each answer, only the fields the pipeline reads are kept: `text`, `email`, `phone_number` and `number`.
- `WriteUserData` is not modelled. It sends an SMS through an HTTP POST to Twilio, which is network I/O.
- `DoStuff` in process.go is empty.
- Go's panics are preconditions:
  - a payload with fewer than three answers;
  - a key line with fewer than five fields;
  - an empty sub-trait name, which cannot arise because rules without a trait are skipped.
- Text.Atoi: the model does not clamp out-of-range values to 64 bits, and the products `key * number` do not wrap. Integers here are unbounded.
- Floating point is not modelled:
  - Raw scores and floors are integers.
  - Normal scores are exact rationals.
  - float64 rounding of 100/96 and float32 precision in process.go are not reproduced.
- Map iteration order is not fixed: each loop takes an arbitrary remaining key. Traits are specified as sums over sets, so the order cannot matter.
- Go's `string(k[0])` takes the first byte of a UTF-8 name. The model takes the first character. The two differ only for names that start with a non-ASCII letter.

## Findings

| source | as written | input that shows it | evidently intended | confidence | as-written member | corrected member |
|---|---|---|---|---|---|---|
| process.go:190 | `(100 / 96) * (raw - min)` divides two untyped integer constants, so the scale is 1 | raw 30, floor 6: normal score 24 | real division, (100/96) * 24 = 25, as lionheart.go:192 does with `float64(96)` | high; not executed | `Process.TraitScaleCounterexample` | `Lionheart.TraitNormal` |
