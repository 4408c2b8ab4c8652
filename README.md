# CDA simulation processor — a Dafny model

The repository post-processes samples from a continuous double auction
(CDA) simulator. Every sample is one simulated market: a set of agents,
each with a trading strategy, ten unit values and a reported score, plus
five repetitions of transactions (buyer, seller, price). The programs
modelled here turn a directory of samples into empirical-game data.

- `CalculateAverageNormalizedUnitValue` averages every agent's normalized
  unit values, slot by slot, and writes the ten averages one per line.
- `CalculateAveragePayoffPerStratPerProf` groups samples by strategy
  profile. A profile key is written as "count/4 name" pairs over the
  sorted strategies, for example `0 A 0 B`. It averages each strategy's
  payoff per profile and computes standard deviations over the samples.
  It writes a line-oriented report: the number of profiles, then per
  profile its key, sample count, strategy count, and four lines per
  strategy.
- `CalculateCoefficients` reads the unit averages and the report. It
  builds the covariance matrix `Sigma` and the variance vector `sigma`
  of a control-variates regression, divides both by `K - 1`, solves, and
  writes the ten coefficients.
- `CalculateRedVarAvgPayoffPerStratPerProf` corrects every agent's
  average payoff with the coefficients (control variates). It averages
  the corrected payoffs per profile and writes a game JSON file and a plain
  report.
- `CalculateVarianceReductionRatio` repeats the coefficient walk. It
  also collects every visited agent's payoff and prints
  `R = ((K-2)/(K-UNITS-2)) (1 - sigma' Sigma^-1 sigma / var)`.
- `ConvertPayoffMatrix` reads a 4-player payoff matrix. It skips 18
  header lines and reads rows of four strategy ids and four payoffs,
  stopping at `];`. It writes the same game JSON layout with
  `sample_count` 1 and `payoff_std` 0.
- `Utils.join` joins strings with a separator.

Modules, one per file:

- `Wrappers`: Option.
- `JavaStrings`: `String.valueOf(int)`, `Integer.valueOf`, `trim`,
  `replace("  ", " ")` and `split(" ")`.
- `Sorting`: `Collections.sort` and `indexOf`.
- `Utils`: `Utils.join`.
- `Market`: the samples, the per-repetition price book, and an agent's
  average payoff.
- `Profiles`: strategy tallies and profile keys.
- `Report`: the report layout and its reader.
- `Readers`: the three input files the later programs read.
- `Aggregation`: the per-profile tables, averages and deviations shared
  by the two averaging programs.
- `AveragePayoff`, `RedVar`, `ControlVariates`, `VarianceRatio`,
  `NormalizedUnitValues` and `PayoffMatrix`: one module per program.
- `GameJson`: the JSON writer shared by two programs.

Loops that update arrays, maps or lists are methods with loop invariants.
Each method is proved equal to a specification function over values, and
lemmas state the properties of those functions.

Things the model takes as parameters:

- I/O is a sequence of lines.
- XML parsing is left out: a sample arrives as a value.
- Written doubles: `show` stands for `Double.toString`.
- Read doubles: `toReal` stands for `Double.valueOf`, and gives `None` on a
  `NumberFormatException`.
- `Math.sqrt` is `sqrt`; the LU solve is `solve`.
- HashMap iteration orders are `order` and `listing`.

Where the Java code would print NaN or Infinity, or throw, the model
returns `None`.

## Model

| member | source | states |
|---|---|---|
| Utils.Join | src/sim/cda/Utils.java:15-25 | the method computes the append-then-delete buffer exactly; for a separator of at most one character that is the separator-join of the strings, and for the empty separator their concatenation |
| Utils.DeleteAt | src/sim/cda/Utils.java:22 | `deleteCharAt(k)` removes exactly the character at k and keeps everything before and after it |
| Utils.DeleteLoop | src/sim/cda/Utils.java:21-23 | the deletion loop removes one character per separator character |
| Utils.JoinedStep | src/sim/cda/Utils.java:17-20 | joining one more string appends the separator and the string |
| Utils.AppendedIsJoinedThenSeparator | src/sim/cda/Utils.java:17-20 | the first loop's buffer is the join followed by one trailing separator |
| Utils.JoinAsWrittenOneChar | src/sim/cda/Utils.java:15-25 | with a separator of at most one character, the deletions remove exactly the trailing separator |
| Utils.JoinedEmptySeparator | src/sim/cda/Utils.java:15-25 | joining with "" is concatenation |
| Utils.JoinedLength | src/sim/cda/Utils.java:15-25 | the join's length is the strings' total length plus one separator between neighbours |
| Utils.JoinTwoCharSeparator | src/sim/cda/Utils.java:21-23 | as written, joining ["a","b"] with ", " gives "a, ," and not "a, b" |
| Utils.JoinCorrected | src/sim/cda/Utils.java:21-23 | deleting the last \|by\| characters yields the separator-join for every non-empty list |
| Utils.SplitJoined | src/sim/cda/Utils.java:15-25 | splitting a space-join of non-empty space-free tokens on " " gives the tokens back |
| Utils.PiecesOfJoined | src/sim/cda/Utils.java:15-25 | the raw pieces of a space-join of space-free tokens are the tokens |
| Utils.Joined | src/sim/cda/Utils.java:15-25 | definition of the intended join: s[0], then the separator and s[i] for each later string, empty for no strings; `Utils.Join` is proved equal to it for separators of at most one character, and `JoinedStep`, `JoinedLength` and `SplitJoined` are proved about it |
| Utils.Appended | src/sim/cda/Utils.java:17-20 | definition of the buffer after the append loop, each string followed by the separator; it is the loop invariant of `Utils.Join`, and `AppendedIsJoinedThenSeparator` relates it to `Joined` |
| Utils.Concat | src/sim/cda/Utils.java:15-25 | definition of plain concatenation; `Utils.Join` is proved equal to it for the empty separator, and `JoinedEmptySeparator` shows `Joined` with "" is the same |
| Utils.TotalLength | src/sim/cda/Utils.java:15-25 | definition of the summed length of the strings, in terms of which `JoinedLength` states the join's length |
| Utils.JoinAsWritten | src/sim/cda/Utils.java:15-25 | definition of `join` as written: the append loop, then |by| deletions at `buf.length() - i - 1`; the method `Utils.Join` is proved equal to it, and `JoinTwoCharSeparator` shows it differs from `Joined` for ", " |
| Utils.PiecesAroundSpace | src/sim/cda/Utils.java:15-25 | the pieces of x + " " + b are the pieces of x followed by those of b (step of `PiecesOfJoined`) |
| Utils.PiecesOfWord | src/sim/cda/Utils.java:15-25 | a string without a space is a single piece (base case of `PiecesOfJoined`) |
| JavaStrings.NatToString | src/sim/cda/CalculateAveragePayoffPerStratPerProf.java:184 | decimal digits with no leading zero |
| JavaStrings.IntToString | src/sim/cda/CalculateAveragePayoffPerStratPerProf.java:184 | `String.valueOf(int)` is non-empty, has no space, and starts with '-' exactly for negatives |
| JavaStrings.DigitsValueOfNatToString | src/sim/cda/CalculateAveragePayoffPerStratPerProf.java:184 | the digits written for n have value n |
| JavaStrings.ParseInt | src/sim/cda/CalculateRedVarAvgPayoffPerStratPerProf.java:83 | `Integer.valueOf` accepts only 32-bit values, and only non-positive ones after a minus sign |
| JavaStrings.IntToStringRoundTrip | src/sim/cda/CalculateRedVarAvgPayoffPerStratPerProf.java:83-88 | `Integer.valueOf(String.valueOf(i)) == i` for every 32-bit i |
| JavaStrings.TrimStart | src/sim/cda/CalculateRedVarAvgPayoffPerStratPerProf.java:73 | drops exactly the leading characters at or below ' ' |
| JavaStrings.TrimEnd | src/sim/cda/CalculateRedVarAvgPayoffPerStratPerProf.java:73 | drops exactly the trailing characters at or below ' ' |
| JavaStrings.Trim | src/sim/cda/ConvertPayoffMatrix.java:61 | `trim` leaves no trimmable character at either end and keeps an already-trimmed string |
| JavaStrings.ReplaceDoubleSpace | src/sim/cda/ConvertPayoffMatrix.java:68 | `replace("  ", " ")` shortens a string exactly when it has a double space, and keeps its first character |
| JavaStrings.SquashCons | src/sim/cda/ConvertPayoffMatrix.java:67-69 | collapsing runs of spaces, one character at a time |
| JavaStrings.SquashFirst | src/sim/cda/ConvertPayoffMatrix.java:67-69 | collapsing keeps emptiness and the first character |
| JavaStrings.DoubleSpaceCons | src/sim/cda/ConvertPayoffMatrix.java:67 | a double space occurs at the front or in the rest, both directions |
| JavaStrings.SquashWithoutDoubleSpace | src/sim/cda/ConvertPayoffMatrix.java:67-69 | a string without a double space is left alone |
| JavaStrings.SquashAfterReplace | src/sim/cda/ConvertPayoffMatrix.java:67-69 | one `replace` pass does not change the string the loop converges to |
| JavaStrings.SquashedHasNoDoubleSpace | src/sim/cda/ConvertPayoffMatrix.java:67 | the `contains("  ")` loop stops: its result has no double space |
| JavaStrings.SquashIdempotent | src/sim/cda/ConvertPayoffMatrix.java:67-69 | cleaning a cleaned line changes nothing |
| JavaStrings.Pieces | src/sim/cda/ConvertPayoffMatrix.java:71 | splitting always yields at least one piece |
| JavaStrings.DropTrailingEmpty | src/sim/cda/ConvertPayoffMatrix.java:71 | `split` drops exactly the trailing empty pieces |
| JavaStrings.LessIrreflexive | src/sim/cda/CalculateAveragePayoffPerStratPerProf.java:180 | string order is irreflexive |
| JavaStrings.LessAsymmetric | src/sim/cda/CalculateAveragePayoffPerStratPerProf.java:180 | string order is asymmetric |
| JavaStrings.LessTransitive | src/sim/cda/CalculateAveragePayoffPerStratPerProf.java:180 | string order is transitive |
| JavaStrings.LessTotal | src/sim/cda/CalculateAveragePayoffPerStratPerProf.java:180 | string order is total on distinct strings |
| JavaStrings.IsDigit | src/sim/cda/CalculateAveragePayoffPerStratPerProf.java:184 | definition of a decimal digit character, '0' to '9' |
| JavaStrings.AllDigits | src/sim/cda/CalculateAveragePayoffPerStratPerProf.java:184 | definition: every character is a digit; `NatToString` is proved to give such a string |
| JavaStrings.DigitChar | src/sim/cda/CalculateAveragePayoffPerStratPerProf.java:184 | the character for digit value d is a digit lying d above '0' |
| JavaStrings.DigitsValue | src/sim/cda/CalculateAveragePayoffPerStratPerProf.java:184 | definition of the value of a digit string, most significant digit first; `DigitsValueOfNatToString` proves that the text of n has value n |
| JavaStrings.IsTrimmed | src/sim/cda/ConvertPayoffMatrix.java:61 | definition of the characters `trim` removes, those at or below ' '; `TrimStart`, `TrimEnd` and `Trim` are specified with it |
| JavaStrings.HasDoubleSpace | src/sim/cda/ConvertPayoffMatrix.java:67 | definition of `contains("  ")`; `ReplaceDoubleSpace`, `DoubleSpaceCons` and `SquashedHasNoDoubleSpace` are stated with it, and the loop of `PayoffMatrix.CleanUp` stops when it is false |
| JavaStrings.SquashSpaces | src/sim/cda/ConvertPayoffMatrix.java:67-69 | reference definition of the clean-up, every run of spaces shortened to one space; the method `PayoffMatrix.CleanUp` is proved equal to it, and `SquashAfterReplace`, `SquashedHasNoDoubleSpace` and `SquashIdempotent` are proved about it |
| JavaStrings.SplitOnSpace | src/sim/cda/ConvertPayoffMatrix.java:71 | definition of `split(" ")`: a string without a space comes back whole, otherwise the pieces without the trailing empty ones; `Utils.SplitJoined` and `PayoffMatrix.MatrixKeySplit` prove it undoes a space-join of tokens |
| JavaStrings.Less | src/sim/cda/CalculateAveragePayoffPerStratPerProf.java:180 | definition of `compareTo(a, b) < 0`: the first differing character decides and a proper prefix comes first; `LessIrreflexive`, `LessAsymmetric`, `LessTransitive` and `LessTotal` prove it a strict total order |
| Sorting.SortList | src/sim/cda/CalculateAveragePayoffPerStratPerProf.java:180 | the insertion-sort method computes the sorting function |
| Sorting.InsertSorted | src/sim/cda/CalculateAveragePayoffPerStratPerProf.java:180 | inserting keeps the list sorted and adds exactly one element |
| Sorting.SortStringsCorrect | src/sim/cda/CalculateAveragePayoffPerStratPerProf.java:180 | sorting distinct strings gives a strictly sorted permutation |
| Sorting.SortedUnique | src/sim/cda/CalculateAveragePayoffPerStratPerProf.java:180 | two strictly sorted lists with the same members are equal |
| Sorting.SortListingIndependent | src/sim/cda/CalculateAveragePayoffPerStratPerProf.java:178-180 | the sorted strategies do not depend on the HashMap's key order |
| Sorting.IndexOf | src/sim/cda/CalculateRedVarAvgPayoffPerStratPerProf.java:230 | `indexOf` is the first position holding x, or -1 exactly when x is absent |
| Sorting.IndexOfDistinct | src/sim/cda/CalculateRedVarAvgPayoffPerStratPerProf.java:281 | in a list without duplicates, `indexOf` finds each element's own position |
| Sorting.Distinct | src/sim/cda/CalculateAveragePayoffPerStratPerProf.java:178-180 | definition of a list without repeated elements, as a key set listed by a HashMap is |
| Sorting.StrictlySorted | src/sim/cda/CalculateAveragePayoffPerStratPerProf.java:180 | definition: each element is `Less` than every later one; `SortStringsCorrect` and `Profiles.SortedKeys` establish it, and `SortedUnique` proves such a list is fixed by its elements |
| Sorting.Insert | src/sim/cda/CalculateAveragePayoffPerStratPerProf.java:180 | definition of placing x after every element not greater than it; `InsertSorted` proves it keeps a list strictly sorted and adds exactly x |
| Sorting.SortStrings | src/sim/cda/CalculateAveragePayoffPerStratPerProf.java:180 | definition of `Collections.sort` as insertion of each element in turn; the method `Sorting.SortList` is proved equal to it, and `SortStringsCorrect` proves it a strictly sorted permutation of distinct input |
| Sorting.Witness | src/sim/cda/CalculateAveragePayoffPerStratPerProf.java:178-180 | two lists with the same members are both empty or both not (step of `SortedUnique`) |
| Market.NormalizedValue | src/sim/cda/CalculateRedVarAvgPayoffPerStratPerProf.java:237-242 | a value in [V_MIN, V_MAX] normalizes into [0, V_MAX - V_MIN] |
| Market.NormalizedValueMirror | src/sim/cda/CalculateRedVarAvgPayoffPerStratPerProf.java:237-242 | the buyer and seller normalizations of a value add up to V_MAX - V_MIN |
| Market.UnitPayoff | src/sim/cda/CalculateAveragePayoffPerStratPerProf.java:147-151 | a buyer gains exactly when the price is at most the value, a seller when it is at least the value; zero exactly at price == value |
| Market.UnitPayoffOpposite | src/sim/cda/CalculateAveragePayoffPerStratPerProf.java:147-151 | buyer and seller payoffs for the same value and price are opposite |
| Market.EmptyBook | src/sim/cda/CalculateAveragePayoffPerStratPerProf.java:59-62 | REPS empty per-repetition maps |
| Market.RecordAll | src/sim/cda/CalculateAveragePayoffPerStratPerProf.java:79-107 | a repetition's transactions change that repetition's map only |
| Market.Bucketed | src/sim/cda/CalculateAveragePayoffPerStratPerProf.java:70-108 | the book has REPS repetitions, indexed by id - 1 |
| Market.RecordBothOrNeither | src/sim/cda/CalculateAveragePayoffPerStratPerProf.java:95-106 | both parties get a (possibly empty) list; the price goes to both lists, or to neither when either list already has UNITS prices |
| Market.RecordCapped | src/sim/cda/CalculateAveragePayoffPerStratPerProf.java:101-104 | one transaction keeps every list at most UNITS long |
| Market.RecordAllCapped | src/sim/cda/CalculateAveragePayoffPerStratPerProf.java:79-107 | a repetition's transactions keep every list at most UNITS long |
| Market.BucketedCapped | src/sim/cda/CalculateAveragePayoffPerStratPerProf.java:70-108 | without self-trades, no agent ever has more than UNITS prices in a repetition |
| Market.BucketTransactions | src/sim/cda/CalculateAveragePayoffPerStratPerProf.java:59-108 | the bucketing loops build the book `Bucketed` describes |
| Market.RecordTransaction | src/sim/cda/CalculateAveragePayoffPerStratPerProf.java:95-106 | the map updates for one transaction |
| Market.MeanOverRepsExample | src/sim/cda/CalculateAveragePayoffPerStratPerProf.java:157-161 | the average is taken over all REPS repetitions, including ones without trades |
| Market.SumFirstZeros | src/sim/cda/CalculateAveragePayoffPerStratPerProf.java:157-160 | zero repetition totals sum to zero |
| Market.AverageWithoutTrades | src/sim/cda/CalculateAveragePayoffPerStratPerProf.java:138-161 | an agent with no transactions has average payoff 0 |
| Market.AgentPayoff | src/sim/cda/CalculateAveragePayoffPerStratPerProf.java:134-161 | the loops compute the mean over repetitions of the per-unit payoffs of the agent's prices |
| Market.WellFormedPricesFit | src/sim/cda/CalculateAveragePayoffPerStratPerProf.java:144-151 | in a well-formed sample every price list is no longer than the agent's values, so `values.get(p)` is in range |
| Market.ValidRepetitionIds | src/sim/cda/CalculateAveragePayoffPerStratPerProf.java:70-75 | definition: every repetition id lies in 1..REPS, so that `transactionPrices.get(id)` at line 95 is not null |
| Market.NoSelfTrade | src/sim/cda/CalculateAveragePayoffPerStratPerProf.java:79-106 | definition: no transaction has the same buyer and seller; `BucketedCapped` needs it to keep each price list at UNITS or fewer |
| Market.IsToken | src/sim/cda/CalculateAveragePayoffPerStratPerProf.java:181-187 | definition of a strategy name that stays one token of the key: not empty and without a space; `Aggregation.ContributionWellShaped` and `Profiles.KeyTokensAreWords` use it |
| Market.WellFormed | src/sim/cda/CalculateAveragePayoffPerStratPerProf.java:111-161 | definition of the samples the model takes: valid repetition ids, no self trade, at least one agent, UNITS values or more per agent, token names; "## Left out" lists where Java accepts more or throws |
| Market.AllWellFormed | src/sim/cda/CalculateAveragePayoffPerStratPerProf.java:48-199 | every sample file of the directory is `WellFormed` |
| Market.IsBuyer | src/sim/cda/CalculateAveragePayoffPerStratPerProf.java:132 | definition of `values.getFirst() > values.getLast()`, the buyer test that `AgentTotal` hands to `UnitPayoff` |
| Market.Prices | src/sim/cda/CalculateAveragePayoffPerStratPerProf.java:95-106 | definition of an agent's price list in one repetition, empty when it has none; `RecordBothOrNeither` is stated with it |
| Market.Record | src/sim/cda/CalculateAveragePayoffPerStratPerProf.java:95-106 | definition of one transaction's updates: a list for each party when missing, then the price on both lists unless one already holds UNITS; the method `Market.RecordTransaction` is proved equal to it, and `RecordCapped` and `RecordBothOrNeither` are proved about it |
| Market.Capped | src/sim/cda/CalculateAveragePayoffPerStratPerProf.java:101-104 | definition: no price list holds more than UNITS prices; `RecordCapped`, `RecordAllCapped` and `BucketedCapped` prove the recording keeps it |
| Market.PricesFit | src/sim/cda/CalculateAveragePayoffPerStratPerProf.java:144-151 | definition: no price list of the agent is longer than its values, so `values.get(p)` is defined; `WellFormedPricesFit` proves every agent of a `WellFormed` sample has it for the recorded book |
| Market.RepetitionTotal | src/sim/cda/CalculateAveragePayoffPerStratPerProf.java:144-153 | definition of the summed unit payoffs of the first n prices, unit p valued at values[p] |
| Market.AgentTotal | src/sim/cda/CalculateAveragePayoffPerStratPerProf.java:138-154 | definition of the agent's total in one repetition, 0 when it has no price list there |
| Market.SumFirst | src/sim/cda/CalculateAveragePayoffPerStratPerProf.java:157-160 | definition of the sum of the first n repetition totals; `SumFirstZeros` proves zeros add up to 0 |
| Market.MeanOverReps | src/sim/cda/CalculateAveragePayoffPerStratPerProf.java:157-161 | definition of the mean of the REPS totals; `MeanOverRepsExample` shows repetitions without trades stay in the divisor |
| Market.AverageOverReps | src/sim/cda/CalculateAveragePayoffPerStratPerProf.java:134-161 | definition of the agent's score, the mean over REPS repetitions of its totals; the method `Market.AgentPayoff` is proved equal to it, and `AverageWithoutTrades` proves it 0 for an agent without trades |
| Profiles.Names | src/sim/cda/CalculateRedVarAvgPayoffPerStratPerProf.java:186-187 | the agents' strategies in `<scores>` order |
| Profiles.FirstSeen | src/sim/cda/CalculateRedVarAvgPayoffPerStratPerProf.java:188-190 | the list of strategies has no duplicates and holds exactly the strategies that occur |
| Profiles.TallyCounts | src/sim/cda/CalculateRedVarAvgPayoffPerStratPerProf.java:186-193 | the count map has exactly the occurring strategies, each with its number of agents |
| Profiles.ScoreSumsKeys | src/sim/cda/CalculateAveragePayoffPerStratPerProf.java:166-174 | the sum map has exactly the occurring strategies |
| Profiles.ScoreSumsMeaning | src/sim/cda/CalculateAveragePayoffPerStratPerProf.java:166-174 | each strategy's sum is the sum of its agents' scores |
| Profiles.CopiesMean | src/sim/cda/CalculateAveragePayoffPerStratPerProf.java:196-199 | n copies of v average to v |
| Profiles.CopiesTimes | src/sim/cda/CalculateAveragePayoffPerStratPerProf.java:196-199 | n copies of v sum to n * v |
| Profiles.ScoreSumForConstant | src/sim/cda/CalculateAveragePayoffPerStratPerProf.java:166-174 | when every agent of a strategy scores v, its sum is count copies of v |
| Profiles.ScoreSumForAbsent | src/sim/cda/CalculateAveragePayoffPerStratPerProf.java:166-174 | an absent strategy sums to 0 |
| Profiles.CountTotalAgree | src/sim/cda/ConvertPayoffMatrix.java:89-96 | a count total depends only on the listed keys |
| Profiles.CountTotalBump | src/sim/cda/ConvertPayoffMatrix.java:94 | adding one to a listed count adds one to the total |
| Profiles.TallyTotal | src/sim/cda/CalculateRedVarAvgPayoffPerStratPerProf.java:186-193 | the counts of the strategies add up to the number of agents |
| Profiles.TallyFirstSeen | src/sim/cda/CalculateRedVarAvgPayoffPerStratPerProf.java:181-194 | the method builds the strategy list and the count map |
| Profiles.FirstSeenStep | src/sim/cda/CalculateRedVarAvgPayoffPerStratPerProf.java:186-193 | one agent more: its strategy is registered when new and counted either way, and the list and the map know the same strategies |
| Profiles.SumByStrategy | src/sim/cda/CalculateAveragePayoffPerStratPerProf.java:166-174 | the method builds the per-strategy counts and sums |
| Profiles.TallyStep | src/sim/cda/CalculateRedVarAvgPayoffPerStratPerProf.java:188-193 | counting one more agent: a new strategy gets 1, a seen one goes up by 1 |
| Profiles.ScoreSumsStep | src/sim/cda/CalculateAveragePayoffPerStratPerProf.java:167-174 | summing one more agent: a new strategy starts at 0 before adding |
| Profiles.SortedKeys | src/sim/cda/CalculateAveragePayoffPerStratPerProf.java:178-180 | the map's keys, strictly sorted |
| Profiles.SortedStrategiesUnique | src/sim/cda/CalculateAveragePayoffPerStratPerProf.java:178-180 | any strictly sorted list of the occurring strategies is the sorted strategy list |
| Profiles.SortedStrategiesProperties | src/sim/cda/CalculateAveragePayoffPerStratPerProf.java:178-180 | the sorted strategy list is strictly sorted, has no duplicates, and holds exactly the occurring strategies |
| Profiles.KeyTokens | src/sim/cda/CalculateAveragePayoffPerStratPerProf.java:181-186 | two tokens per sorted strategy |
| Profiles.KeyTokensAt | src/sim/cda/CalculateAveragePayoffPerStratPerProf.java:181-186 | strategy j's count divided by 4 is token 2j and its name token 2j + 1 |
| Profiles.KeyTokensAreWords | src/sim/cda/CalculateAveragePayoffPerStratPerProf.java:181-186 | no token holds a space when no strategy name does |
| Profiles.EverySecondNames | src/sim/cda/CalculateAveragePayoffPerStratPerProf.java:181-187 | every second token, from the second on, gives back the strategy names |
| Profiles.BuildProfileKey | src/sim/cda/CalculateAveragePayoffPerStratPerProf.java:181-187 | the method joins the tokens into the profile key |
| Profiles.IdentifyProfile | src/sim/cda/CalculateRedVarAvgPayoffPerStratPerProf.java:176-203 | the method yields the sorted strategies and the sample's profile key |
| Profiles.KeyDeterminesStrategies | src/sim/cda/CalculateAveragePayoffPerStratPerProf.java:181-187 | the profile key determines the strategy list it was built from |
| Profiles.SampleKeyPermutation | src/sim/cda/CalculateAveragePayoffPerStratPerProf.java:177-187 | reordering the agents does not change the profile key |
| Profiles.SampleKeyExample | src/sim/cda/CalculateAveragePayoffPerStratPerProf.java:184 | agents A, B, B, A give the key "0 A 0 B" because of the division by 4 |
| Profiles.ExampleJoin | src/sim/cda/CalculateAveragePayoffPerStratPerProf.java:187 | worked example of the key join |
| Profiles.ExampleStrategies | src/sim/cda/CalculateAveragePayoffPerStratPerProf.java:178-180 | worked example of the sorted strategies |
| Profiles.ExampleTally | src/sim/cda/CalculateAveragePayoffPerStratPerProf.java:166-174 | worked example of the counts |
| Profiles.IndexOfAgentStrategy | src/sim/cda/CalculateRedVarAvgPayoffPerStratPerProf.java:230 | every agent's strategy is found in the sorted list |
| Profiles.Tally | src/sim/cda/CalculateRedVarAvgPayoffPerStratPerProf.java:186-193 | definition of the count per strategy, built one agent at a time; `TallyCounts` proves it counts exactly the agents of each occurring strategy, and `Profiles.TallyFirstSeen` and `PayoffMatrix.CountStrategies` are proved equal to it |
| Profiles.ScoreSums | src/sim/cda/CalculateAveragePayoffPerStratPerProf.java:166-174 | definition of the score sum per strategy, built one agent at a time; `Profiles.SumByStrategy` is proved equal to it, and `ScoreSumsMeaning` proves each entry is `ScoreSumFor` |
| Profiles.ScoreSumFor | src/sim/cda/CalculateAveragePayoffPerStratPerProf.java:166-174 | reference definition of the summed scores of the agents that play x; `ScoreSumForConstant` and `ScoreSumForAbsent` are proved about it |
| Profiles.Copies | src/sim/cda/CalculateAveragePayoffPerStratPerProf.java:196-199 | definition of v added n times; `CopiesTimes` proves it is n * v and `CopiesMean` that dividing by n gives v back |
| Profiles.CountTotal | src/sim/cda/ConvertPayoffMatrix.java:89-96 | definition of the summed counts of the listed strategies; `TallyTotal` and `PayoffMatrix.TallyTotalAnyOrder` prove the tally of n agents sums to n over any distinct listing of its strategies |
| Profiles.SortedStrategies | src/sim/cda/CalculateAveragePayoffPerStratPerProf.java:178-180 | definition of the sample's strategies in `compareTo` order; `SortedStrategiesProperties` and `SortedStrategiesUnique` prove it is the strictly sorted list of exactly those strategies, and `Profiles.IdentifyProfile` is proved to return it |
| Profiles.ProfileKey | src/sim/cda/CalculateAveragePayoffPerStratPerProf.java:181-187 | definition of the key: count/4 and name per strategy, joined on a space; the method `Profiles.BuildProfileKey` is proved equal to it, and `KeyDeterminesStrategies` proves the strategies can be read back from it |
| Profiles.SampleKey | src/sim/cda/CalculateAveragePayoffPerStratPerProf.java:177-187 | definition of a sample's profile key; `Profiles.IdentifyProfile` is proved to return it, and `SampleKeyPermutation` proves it independent of the agents' order |
| Profiles.StrategiesOfKey | src/sim/cda/CalculateAveragePayoffPerStratPerProf.java:181-188 | definition of the strategies a key names, every second token of its split; `KeyDeterminesStrategies` proves it returns the sorted list stored beside the key at line 188 |
| Profiles.EverySecond | src/sim/cda/CalculateAveragePayoffPerStratPerProf.java:181-186 | definition of tokens 1, 3, 5, ...; `EverySecondNames` proves it picks out the names of a count-then-name list |
| Report.RowLines | src/sim/cda/CalculateAveragePayoffPerStratPerProf.java:339-353 | four lines per strategy |
| Report.BlockLines | src/sim/cda/CalculateAveragePayoffPerStratPerProf.java:329-353 | 3 + 4n lines per profile |
| Report.BlocksLinesLength | src/sim/cda/CalculateAveragePayoffPerStratPerProf.java:329-354 | the profile blocks' length is the sum of their sizes |
| Report.BlocksLinesSnoc | src/sim/cda/CalculateAveragePayoffPerStratPerProf.java:329-354 | one more profile appends its block |
| Report.BlocksLinesPrefix | src/sim/cda/CalculateAveragePayoffPerStratPerProf.java:329-354 | prefix form of the same |
| Report.RenderReportLength | src/sim/cda/CalculateAveragePayoffPerStratPerProf.java:324-354 | one count line plus the blocks |
| Report.Payoffs | src/sim/cda/CalculateAveragePayoffPerStratPerProf.java:347-349 | the payoff column of a block |
| Report.RowLinesPayoff | src/sim/cda/CalculateAveragePayoffPerStratPerProf.java:347-349 | strategy j's payoff is at line 4j + 2 of the rows |
| Report.StrategyCountAt | src/sim/cda/CalculateRedVarAvgPayoffPerStratPerProf.java:86-89 | the strategy count is read two lines after the key, and the block's lines exist |
| Report.ReadHeader | src/sim/cda/CalculateRedVarAvgPayoffPerStratPerProf.java:86-89 | the method reads that count |
| Report.BlockAt | src/sim/cda/CalculateRedVarAvgPayoffPerStratPerProf.java:85-96 | a printed block sits at its position: key, count, payoffs, next index |
| Report.ParseOneProfile | src/sim/cda/CalculateRedVarAvgPayoffPerStratPerProf.java:85-96 | reading one profile advances the index by 3 + 4n and stores its payoff column |
| Report.RenderedBlocksAt | src/sim/cda/CalculateAveragePayoffPerStratPerProf.java:329-354 | printed blocks can be found line by line where they were written |
| Report.FirstBlockAt | src/sim/cda/CalculateAveragePayoffPerStratPerProf.java:329-354 | the first printed block has its header and payoff lines in place, and the other blocks' lines follow it |
| Report.ParseBlocksAt | src/sim/cda/CalculateRedVarAvgPayoffPerStratPerProf.java:84-96 | the reader's loop over printed blocks yields their payoff columns |
| Report.ReportRoundTrip | src/sim/cda/CalculateAveragePayoffPerStratPerProf.java:324-354 | reading a printed report gives back each profile's payoff column |
| Report.PayoffMapFromDistinct | src/sim/cda/CalculateRedVarAvgPayoffPerStratPerProf.java:95 | with distinct keys each profile's column is stored under its key, and only those keys are added |
| Report.ReportReadsBlocks | src/sim/cda/CalculateAveragePayoffPerStratPerProf.java:324-354 | reading a printed report gives exactly the printed keys with their columns |
| Report.BlocksLines | src/sim/cda/CalculateAveragePayoffPerStratPerProf.java:329-354 | definition of the report's lines after the count, block after block; `BlocksLinesLength`, `BlocksLinesSnoc` and `BlocksLinesPrefix` are proved about it |
| Report.RenderReport | src/sim/cda/CalculateAveragePayoffPerStratPerProf.java:324-354 | definition of the whole report: the profile count, then the blocks; the method `Aggregation.EmitReport` is proved to print it, and `ReportRoundTrip` proves the reader gets the payoff map of its blocks back |
| Report.LineCount | src/sim/cda/CalculateAveragePayoffPerStratPerProf.java:329-354 | definition of the length of the blocks, 3 + 4 n per profile with n strategies; `BlocksLinesLength` and `RenderReportLength` are proved with it |
| Report.ParseProfiles | src/sim/cda/CalculateRedVarAvgPayoffPerStratPerProf.java:84-96 | definition of the reading loop: key, count two lines down, then a payoff every four lines, None where Java throws; `Readers.ReadProfiles` is proved to succeed exactly when it and `CellsParse` do, and `ParseBlocksAt` proves it reads each rendered block |
| Report.ParsedReport | src/sim/cda/CalculateRedVarAvgPayoffPerStratPerProf.java:81-96 | definition of the payoff texts per key as the readers get them; `ReportRoundTrip` proves a rendered report reads back as the payoff map of its blocks |
| Report.PayoffColumn | src/sim/cda/CalculateRedVarAvgPayoffPerStratPerProf.java:90-94 | definition of the payoff line of each of n four-line blocks; `Readers.ReadPayoffValues` is proved to read it, and `RowLinesPayoff` proves a rendered block carries its payoffs there |
| Report.PayoffMapFrom | src/sim/cda/CalculateRedVarAvgPayoffPerStratPerProf.java:95 | definition of the map built from the blocks, later blocks winning; `PayoffMapFromDistinct` proves that with distinct keys each key maps to its own block's payoffs |
| Report.DistinctKeys | src/sim/cda/CalculateAveragePayoffPerStratPerProf.java:324-354 | definition: no two blocks share a key, as with the keys of a HashMap; `ReportReadsBlocks` and `PayoffMapFromDistinct` need it |
| Report.Printable | src/sim/cda/CalculateAveragePayoffPerStratPerProf.java:329-354 | definition of counts that `String.valueOf` writes and `Integer.valueOf` reads back, at most 2^31 - 1 |
| Report.HeaderAt | src/sim/cda/CalculateRedVarAvgPayoffPerStratPerProf.java:85-94 | definition of what the reading loop finds for a block at line start: its key, its count two lines down, its payoffs every four lines; `FirstBlockAt` proves a rendered block satisfies it |
| Report.BlocksAt | src/sim/cda/CalculateRedVarAvgPayoffPerStratPerProf.java:84-96 | definition of every block being found where the reading loop looks; `RenderedBlocksAt` proves a rendered report satisfies it |
| Readers.UnitValues | src/sim/cda/CalculateRedVarAvgPayoffPerStratPerProf.java:67-75 | defined exactly when there are at most UNITS lines and each parses after `trim`; the lines fill the first slots and the rest stay 0 |
| Readers.ReadUnitValues | src/sim/cda/CalculateRedVarAvgPayoffPerStratPerProf.java:67-75 | the loop reads that |
| Readers.Coefficients | src/sim/cda/CalculateRedVarAvgPayoffPerStratPerProf.java:99-106 | defined exactly when the first UNITS lines exist and parse; the result holds them |
| Readers.ReadCoefficients | src/sim/cda/CalculateRedVarAvgPayoffPerStratPerProf.java:99-106 | the loop reads that |
| Readers.ConvertColumn | src/sim/cda/CalculateRedVarAvgPayoffPerStratPerProf.java:90-94 | every payoff cell converted by `Double.valueOf` |
| Readers.Convert | src/sim/cda/CalculateRedVarAvgPayoffPerStratPerProf.java:77-97 | same keys, each column converted |
| Readers.ConvertUpdate | src/sim/cda/CalculateRedVarAvgPayoffPerStratPerProf.java:95 | putting a column then converting equals converting then putting |
| Readers.ParsedAveragesFrom | src/sim/cda/CalculateRedVarAvgPayoffPerStratPerProf.java:81-85 | the profile count comes from the first line |
| Readers.ReadStep | src/sim/cda/CalculateRedVarAvgPayoffPerStratPerProf.java:85-96 | one iteration of the profile loop |
| Readers.ReadAverages | src/sim/cda/CalculateRedVarAvgPayoffPerStratPerProf.java:77-97 | the method reads the report as `ParsedAverages` describes, failing where Java throws |
| Readers.ReadProfiles | src/sim/cda/CalculateRedVarAvgPayoffPerStratPerProf.java:84-96 | the profile loop |
| Readers.ReadNext | src/sim/cda/CalculateRedVarAvgPayoffPerStratPerProf.java:85-96 | one profile read keeps the loop's invariant |
| Readers.ReadProfile | src/sim/cda/CalculateRedVarAvgPayoffPerStratPerProf.java:86-94 | succeeds exactly when the count and every payoff parse, and returns them |
| Readers.ReadFailure | src/sim/cda/CalculateRedVarAvgPayoffPerStratPerProf.java:88-94 | a bad count or payoff fails the whole read |
| Readers.ReadPayoffValues | src/sim/cda/CalculateRedVarAvgPayoffPerStratPerProf.java:90-94 | the inner loop succeeds exactly when every cell parses |
| Readers.ReadBack | src/sim/cda/CalculateAveragePayoffPerStratPerProf.java:348 | under the double round-trip assumption a written payoff reads back |
| Readers.RenderedCellsParse | src/sim/cda/CalculateAveragePayoffPerStratPerProf.java:339-353 | printed payoff cells that parse make the reader succeed |
| Readers.RenderedAverages | src/sim/cda/CalculateAveragePayoffPerStratPerProf.java:324-354 | reading a printed report converts its payoff columns |
| Readers.ReadBackValue | src/sim/cda/CalculateAverageNormalizedUnitValue.java:100 | a written value reads back after `trim` |
| Readers.ColumnParses | src/sim/cda/CalculateRedVarAvgPayoffPerStratPerProf.java:91-94 | definition: `Double.valueOf` succeeds on every payoff text of a profile; `Readers.ReadProfile` succeeds exactly when it holds |
| Readers.ValueOf | src/sim/cda/CalculateRedVarAvgPayoffPerStratPerProf.java:92 | the double a successful parse gives, used by `ConvertColumn` |
| Readers.CellsParse | src/sim/cda/CalculateRedVarAvgPayoffPerStratPerProf.java:84-96 | definition of every payoff text the reading loop meets parsing as a double; `Readers.ReadProfiles` succeeds exactly when it and `Report.ParseProfiles` do, and `RenderedCellsParse` proves it for a rendered report |
| Readers.ParsedAverages | src/sim/cda/CalculateRedVarAvgPayoffPerStratPerProf.java:77-97 | definition of the strategyProfileAvgs map, None where reading throws; `Readers.ReadAverages` is proved equal to it, and `RenderedAverages` proves a rendered report reads back as its averages |
| Readers.ReadsAsDoubles | src/sim/cda/CalculateAveragePayoffPerStratPerProf.java:347-349 | the assumption that `Double.valueOf` reads back every text `Double.toString` prints; the round-trip lemmas `ReadBack` and `AveragePayoff.AveragePayoffFeedsReaders` take it as a requirement |
| Readers.ReadsTrimmedAsDoubles | src/sim/cda/CalculateAverageNormalizedUnitValue.java:98-103 | the same assumption after `trim`, as the unit-value and coefficient readers do; `ReadBackValue`, `NormalizedUnitValues.UnitValueLinesReadBack` and `ControlVariates.CoefficientLinesReadBack` take it as a requirement |
| Aggregation.StrategyAverages | src/sim/cda/CalculateAveragePayoffPerStratPerProf.java:196-199 | each average times its count is the strategy's sum |
| Aggregation.SampleContribution | src/sim/cda/CalculateAveragePayoffPerStratPerProf.java:166-199 | a sample's key, strategies, counts and per-strategy averages |
| Aggregation.AveragesOf | src/sim/cda/CalculateAveragePayoffPerStratPerProf.java:196-199 | the loop computes the averages |
| Aggregation.ContributionWellShaped | src/sim/cda/CalculateAveragePayoffPerStratPerProf.java:177-193 | a sample's strategies are the ones its key names |
| Aggregation.ContributionAverage | src/sim/cda/CalculateAveragePayoffPerStratPerProf.java:196-199 | a sample's k-th average is the mean of that strategy's agents' scores |
| Aggregation.Zeros | src/sim/cda/CalculateAveragePayoffPerStratPerProf.java:206-207 | a zero-filled sums array |
| Aggregation.AddAt | src/sim/cda/CalculateAveragePayoffPerStratPerProf.java:211-214 | slot-wise sum |
| Aggregation.QuarterCounts | src/sim/cda/CalculateAveragePayoffPerStratPerProf.java:189-192 | each strategy gets count/4, truncated |
| Aggregation.AddSample | src/sim/cda/CalculateAveragePayoffPerStratPerProf.java:201-215 | adding a sample keeps the tables consistent |
| Aggregation.AllWellShapedSplit | src/sim/cda/CalculateAveragePayoffPerStratPerProf.java:48-216 | shape of a prefix |
| Aggregation.Accumulate | src/sim/cda/CalculateAveragePayoffPerStratPerProf.java:48-216 | the first pass yields consistent tables |
| Aggregation.AccumulateStep | src/sim/cda/CalculateAveragePayoffPerStratPerProf.java:48-216 | the last sample is added after the others |
| Aggregation.AccumulateLabelled | src/sim/cda/CalculateAveragePayoffPerStratPerProf.java:188-193 | the stored strategies and counts are the ones the key names |
| Aggregation.AccumulatePrefix | src/sim/cda/CalculateAveragePayoffPerStratPerProf.java:48-216 | the tables after i + 1 samples add sample i |
| Aggregation.KeyCountPositive | src/sim/cda/CalculateAveragePayoffPerStratPerProf.java:202-210 | a sample's key has been seen at least once |
| Aggregation.KeyCountWitness | src/sim/cda/CalculateAveragePayoffPerStratPerProf.java:202-210 | a key has been counted exactly when some sample has it |
| Aggregation.KeySumConstant | src/sim/cda/CalculateAveragePayoffPerStratPerProf.java:211-214 | constant contributions sum to copies |
| Aggregation.AccumulateCounts | src/sim/cda/CalculateAveragePayoffPerStratPerProf.java:202-210 | a profile's sample count is the number of samples with its key |
| Aggregation.AccumulateKeys | src/sim/cda/CalculateAveragePayoffPerStratPerProf.java:202-210 | the profiles are exactly the samples' keys |
| Aggregation.AddSampleCount | src/sim/cda/CalculateAveragePayoffPerStratPerProf.java:202-210 | one sample bumps only its key's count |
| Aggregation.AccumulateSums | src/sim/cda/CalculateAveragePayoffPerStratPerProf.java:211-215 | a profile's sum in slot i is the sum of slot i over its samples |
| Aggregation.UnseenKeySum | src/sim/cda/CalculateAveragePayoffPerStratPerProf.java:211-215 | an unseen key sums to 0 |
| Aggregation.KeySumStep | src/sim/cda/CalculateAveragePayoffPerStratPerProf.java:211-215 | one more sample adds its slot only to its own key |
| Aggregation.AddSampleSum | src/sim/cda/CalculateAveragePayoffPerStratPerProf.java:211-215 | one sample adds to its key's row only |
| Aggregation.KeySumAbsent | src/sim/cda/CalculateAveragePayoffPerStratPerProf.java:211-215 | a key no sample has sums to 0 in every slot |
| Aggregation.Mean | src/sim/cda/CalculateAveragePayoffPerStratPerProf.java:223-224 | each mean times n is its sum |
| Aggregation.ProfileAverages | src/sim/cda/CalculateAveragePayoffPerStratPerProf.java:218-227 | one average row per profile, as long as its sums |
| Aggregation.ProfileAverageIsMean | src/sim/cda/CalculateAveragePayoffPerStratPerProf.java:218-227 | a profile's average in slot i is the mean over its samples of their slot-i averages |
| Aggregation.ConstantAverage | src/sim/cda/CalculateAveragePayoffPerStratPerProf.java:218-227 | samples that agree on a slot average to that value |
| Aggregation.AgreeingAverages | src/sim/cda/CalculateAveragePayoffPerStratPerProf.java:218-227 | when every sample agrees with a table, the computed averages are that table |
| Aggregation.Square | src/sim/cda/CalculateAveragePayoffPerStratPerProf.java:297 | `Math.pow(x, 2)` is non-negative |
| Aggregation.SquaredDeviations | src/sim/cda/CalculateAveragePayoffPerStratPerProf.java:296-298 | slot-wise squared deviations are non-negative |
| Aggregation.AddDeviation | src/sim/cda/CalculateAveragePayoffPerStratPerProf.java:287-299 | adding a sample's deviations keeps the row shapes |
| Aggregation.Deviations | src/sim/cda/CalculateAveragePayoffPerStratPerProf.java:229-300 | the second pass yields rows shaped like their keys |
| Aggregation.DeviationsPrefix | src/sim/cda/CalculateAveragePayoffPerStratPerProf.java:229-300 | the deviations after i + 1 samples add sample i |
| Aggregation.DeviationsNonNegative | src/sim/cda/CalculateAveragePayoffPerStratPerProf.java:229-300 | every deviation sum is non-negative, and exactly the seen profiles have one |
| Aggregation.SelfCentred | src/sim/cda/CalculateAveragePayoffPerStratPerProf.java:294-297 | every sample can be centred on the first pass's averages, and the deviations cover the same profiles |
| Aggregation.DeviationsMeaning | src/sim/cda/CalculateAveragePayoffPerStratPerProf.java:229-300 | a deviation sum is the sum over the key's samples of squared differences from the average |
| Aggregation.KeyDeviationStep | src/sim/cda/CalculateAveragePayoffPerStratPerProf.java:296-298 | one more sample adds only to its key |
| Aggregation.AddDeviationAt | src/sim/cda/CalculateAveragePayoffPerStratPerProf.java:296-298 | slot i after one sample |
| Aggregation.KeyDeviationAbsent | src/sim/cda/CalculateAveragePayoffPerStratPerProf.java:288-292 | an unseen key has no deviation |
| Aggregation.StdDevs | src/sim/cda/CalculateAveragePayoffPerStratPerProf.java:302-311 | one std row per deviation row, same length |
| Aggregation.RecordSample | src/sim/cda/CalculateAveragePayoffPerStratPerProf.java:201-215 | the method adds a sample to the tables, in any HashMap order |
| Aggregation.AddInOrder | src/sim/cda/CalculateAveragePayoffPerStratPerProf.java:211-214 | adding through `indexOf` in any key order gives the slot-wise sum |
| Aggregation.QuarterCountsOf | src/sim/cda/CalculateAveragePayoffPerStratPerProf.java:189-192 | the loop builds the quartered counts |
| Aggregation.ComputeAverages | src/sim/cda/CalculateAveragePayoffPerStratPerProf.java:218-227 | the loop computes the profile averages |
| Aggregation.RecordDeviation | src/sim/cda/CalculateAveragePayoffPerStratPerProf.java:287-299 | the method adds one sample's squared deviations |
| Aggregation.ComputeStdDevs | src/sim/cda/CalculateAveragePayoffPerStratPerProf.java:302-311 | the loop computes the standard deviations |
| Aggregation.ProfileBlock | src/sim/cda/CalculateAveragePayoffPerStratPerProf.java:329-353 | a printed profile has its key, sample count and one row per stored strategy, with the average written by `show` |
| Aggregation.ReportBlocks | src/sim/cda/CalculateAveragePayoffPerStratPerProf.java:327-354 | one block per profile in iteration order |
| Aggregation.DistinctCardinality | src/sim/cda/CalculateAveragePayoffPerStratPerProf.java:327 | the printed profile count is the number of profiles |
| Aggregation.EmitReport | src/sim/cda/CalculateAveragePayoffPerStratPerProf.java:324-354 | the method prints the report |
| Aggregation.EmitProfile | src/sim/cda/CalculateAveragePayoffPerStratPerProf.java:330-353 | the method prints one profile |
| Aggregation.ReportReadsBack | src/sim/cda/CalculateAveragePayoffPerStratPerProf.java:324-354 | reading the report gives exactly the profiles, with each average written by `show` |
| Aggregation.ReadBackKeys | src/sim/cda/CalculateAveragePayoffPerStratPerProf.java:329 | the read keys are the profiles |
| Aggregation.ReportBlocksShape | src/sim/cda/CalculateAveragePayoffPerStratPerProf.java:327-354 | the blocks are printable, with distinct keys |
| Aggregation.ReportCellsParse | src/sim/cda/CalculateAveragePayoffPerStratPerProf.java:347-349 | every printed payoff parses |
| Aggregation.ConvertReadBack | src/sim/cda/CalculateRedVarAvgPayoffPerStratPerProf.java:90-95 | converting the read columns gives the averages |
| Aggregation.ReportFeedsReaders | src/sim/cda/CalculateAveragePayoffPerStratPerProf.java:324-354 | the averages the readers get from a printed report are the averages printed |
| Aggregation.ReportBlocksAgree | src/sim/cda/CalculateRedVarAvgPayoffPerStratPerProf.java:489-512 | the printed blocks read the averages of the printed profiles only |
| Aggregation.ContributionOf | src/sim/cda/CalculateAveragePayoffPerStratPerProf.java:166-199 | definition of one sample's contribution: key, sorted strategies, counts and per-strategy averages; `Aggregation.SampleContribution` is proved equal to it, and `ContributionWellShaped` and `ContributionAverage` are proved about it |
| Aggregation.WellShaped | src/sim/cda/CalculateAveragePayoffPerStratPerProf.java:177-193 | definition: the contribution's strategy list is the one its key names, distinct and non-empty, with one average and one count per strategy; `ContributionWellShaped` proves every sample's contribution has it |
| Aggregation.AllWellShaped | src/sim/cda/CalculateAveragePayoffPerStratPerProf.java:48-216 | every contribution is `WellShaped`; `Accumulate` requires it |
| Aggregation.Consistent | src/sim/cda/CalculateAveragePayoffPerStratPerProf.java:201-215 | definition: the sample, sum, strategy and count maps share their keys, every key has a sample, and each sum array has one slot per strategy; `Aggregation.AddSample` and `Accumulate` keep it |
| Aggregation.Labelled | src/sim/cda/CalculateAveragePayoffPerStratPerProf.java:188-193 | definition: each key's stored strategy list is the one the key names, each strategy with a count; `AccumulateLabelled` proves the tables keep it |
| Aggregation.KeyCount | src/sim/cda/CalculateAveragePayoffPerStratPerProf.java:202-210 | reference definition of how many samples have key k; `AccumulateCounts` proves the table's sample count is it, and `KeyCountPositive` that it is positive for an occurring key |
| Aggregation.KeySum | src/sim/cda/CalculateAveragePayoffPerStratPerProf.java:211-215 | reference definition of the summed i-th averages of the samples with key k; `AccumulateSums` proves the table's sums are these, and `KeySumConstant` and `UnseenKeySum` are proved about it |
| Aggregation.KeyShaped | src/sim/cda/CalculateAveragePayoffPerStratPerProf.java:287-299 | definition of per-key arrays as long as the keys' strategy lists; `Deviations` keeps it |
| Aggregation.Centred | src/sim/cda/CalculateAveragePayoffPerStratPerProf.java:287-299 | definition of a contribution whose key has a profile average array of the right length; `AddDeviation` requires it |
| Aggregation.AllCentred | src/sim/cda/CalculateAveragePayoffPerStratPerProf.java:229-300 | every contribution is `Centred`; `SelfCentred` proves the second pass meets it |
| Aggregation.NonNegative | src/sim/cda/CalculateAveragePayoffPerStratPerProf.java:229-300 | definition of maps whose entries are all at least 0; `DeviationsNonNegative` proves the deviation sums are |
| Aggregation.KeyDeviation | src/sim/cda/CalculateAveragePayoffPerStratPerProf.java:296-298 | reference definition of the summed squared deviations of slot i over the samples with key k; `DeviationsMeaning` proves each deviation sum equals it |
| Aggregation.Reportable | src/sim/cda/CalculateAveragePayoffPerStratPerProf.java:324-354 | definition: the tables are consistent and labelled, and the averages and deviations cover every profile with one entry per strategy; `EmitReport` requires it and `AveragePayoff.ReportReady` proves the program meets it |
| Aggregation.ReadsBack | src/sim/cda/CalculateAveragePayoffPerStratPerProf.java:324-354 | definition of what the reader gets back: exactly the given profiles, each with the printed text of each average; `ReportReadsBack` proves the printed report satisfies it |
| AveragePayoff.ComputedScores | src/sim/cda/CalculateAveragePayoffPerStratPerProf.java:134-161 | one computed average payoff per agent |
| AveragePayoff.ReportedScores | src/sim/cda/CalculateAveragePayoffPerStratPerProf.java:254-256 | the second pass uses each agent's `<score>` |
| AveragePayoff.FirstPass | src/sim/cda/CalculateAveragePayoffPerStratPerProf.java:48-199 | one contribution per sample |
| AveragePayoff.SecondPass | src/sim/cda/CalculateAveragePayoffPerStratPerProf.java:231-285 | one contribution per sample |
| AveragePayoff.Tables | src/sim/cda/CalculateAveragePayoffPerStratPerProf.java:48-216 | the first-pass tables are consistent |
| AveragePayoff.PassesFit | src/sim/cda/CalculateAveragePayoffPerStratPerProf.java:269-279 | both passes give each sample the same key and strategies |
| AveragePayoff.SameKeysSameCounts | src/sim/cda/CalculateAveragePayoffPerStratPerProf.java:288-292 | matching keys give matching counts |
| AveragePayoff.SecondPassCentred | src/sim/cda/CalculateAveragePayoffPerStratPerProf.java:293-297 | every second-pass sample finds its profile's first-pass averages |
| AveragePayoff.DeviationKeys | src/sim/cda/CalculateAveragePayoffPerStratPerProf.java:288-292 | the deviation sums cover exactly the first-pass profiles |
| AveragePayoff.ReportReady | src/sim/cda/CalculateAveragePayoffPerStratPerProf.java:302-311 | every printed lookup succeeds |
| AveragePayoff.AveragePayoffRoundTrip | src/sim/cda/CalculateAveragePayoffPerStratPerProf.java:324-357 | the report reads back as the first-pass profile averages, written by `show` |
| AveragePayoff.AveragePayoffFeedsReaders | src/sim/cda/CalculateAveragePayoffPerStratPerProf.java:324-357 | the later programs read exactly the first-pass profile averages from the report |
| AveragePayoff.AverageKeys | src/sim/cda/CalculateAveragePayoffPerStratPerProf.java:218-227 | every profile has averages |
| AveragePayoff.ScoreAgents | src/sim/cda/CalculateAveragePayoffPerStratPerProf.java:111-161 | the agent loop computes every agent's average payoff |
| AveragePayoff.AveragePayoffs | src/sim/cda/CalculateAveragePayoffPerStratPerProf.java:48-357 | the program writes the report `AveragePayoffReport` describes |
| AveragePayoff.AccumulateSamples | src/sim/cda/CalculateAveragePayoffPerStratPerProf.java:48-216 | the first pass |
| AveragePayoff.DeviationPass | src/sim/cda/CalculateAveragePayoffPerStratPerProf.java:229-300 | the second pass |
| AveragePayoff.DeviationSums | src/sim/cda/CalculateAveragePayoffPerStratPerProf.java:229-300 | definition of the deviation sums of the second pass; the method `AveragePayoff.DeviationPass` is proved equal to it, and `DeviationKeys` proves it has exactly the profile keys |
| AveragePayoff.StdDevTable | src/sim/cda/CalculateAveragePayoffPerStratPerProf.java:302-311 | definition of the standard deviation table, sqrt of each deviation sum over the sample count; `ReportReady` proves it fits the report |
| AveragePayoff.AveragePayoffReport | src/sim/cda/CalculateAveragePayoffPerStratPerProf.java:48-357 | definition of the printed report of the program; the method `AveragePayoff.AveragePayoffs` is proved equal to it, and `AveragePayoffRoundTrip` proves the readers get its averages back |
| GameJson.StrategyTexts | src/sim/cda/CalculateRedVarAvgPayoffPerStratPerProf.java:454-460 | one object per strategy |
| GameJson.ProfileTexts | src/sim/cda/CalculateRedVarAvgPayoffPerStratPerProf.java:447-468 | one object per profile |
| GameJson.ProfileTextAt | src/sim/cda/CalculateRedVarAvgPayoffPerStratPerProf.java:447-449 | the j-th profile object carries id j |
| GameJson.PrintNext | src/sim/cda/CalculateRedVarAvgPayoffPerStratPerProf.java:461-463 | one pass of a print loop: the element and, unless it is the last, a comma extend the comma-separated list by one |
| GameJson.PrintProfile | src/sim/cda/CalculateRedVarAvgPayoffPerStratPerProf.java:447-472 | one pass of the profile loop: profile id's object and its comma extend the profile list by one |
| GameJson.WriteGame | src/sim/cda/CalculateRedVarAvgPayoffPerStratPerProf.java:435-482 | the printed file is the header, the comma-separated profiles and the footer |
| GameJson.WriteProfiles | src/sim/cda/CalculateRedVarAvgPayoffPerStratPerProf.java:447-472 | the profile loop prints the comma-separated profiles |
| GameJson.WriteProfile | src/sim/cda/CalculateRedVarAvgPayoffPerStratPerProf.java:449-468 | one profile object |
| GameJson.WriteStrategies | src/sim/cda/CalculateRedVarAvgPayoffPerStratPerProf.java:454-464 | the strategy loop prints the comma-separated strategies |
| GameJson.StrategyText | src/sim/cda/CalculateRedVarAvgPayoffPerStratPerProf.java:454-460 | definition of one printed strategy object; `StrategyTexts` lists one per strategy |
| GameJson.ProfileText | src/sim/cda/CalculateRedVarAvgPayoffPerStratPerProf.java:447-472 | definition of one printed profile object with its id; the method `GameJson.WriteProfile` is proved to print it |
| GameJson.Numbered | src/sim/cda/CalculateRedVarAvgPayoffPerStratPerProf.java:447-449 | each element mapped together with its position, as the `id++` numbering |
| GameJson.NumberedAt | src/sim/cda/CalculateRedVarAvgPayoffPerStratPerProf.java:447-449 | entry j of `Numbered` is f applied to j and element j |
| GameJson.GameText | src/sim/cda/CalculateRedVarAvgPayoffPerStratPerProf.java:435-482 | definition of the whole JSON file; the method `GameJson.WriteGame` is proved to print it |
| RedVar.ReadInputs | src/sim/cda/CalculateRedVarAvgPayoffPerStratPerProf.java:67-106 | the inputs exist exactly when the unit values and the report parse |
| RedVar.NoCoefficientsNoCorrection | src/sim/cda/CalculateRedVarAvgPayoffPerStratPerProf.java:236-244 | zero coefficients make no correction |
| RedVar.AverageValuesNoCorrection | src/sim/cda/CalculateRedVarAvgPayoffPerStratPerProf.java:236-244 | an agent at the average unit values gets no correction |
| RedVar.ReducedScore | src/sim/cda/CalculateRedVarAvgPayoffPerStratPerProf.java:229-244 | defined exactly when the profile and slot exist; the reduced score plus the correction is the looked-up average |
| RedVar.ReducedScoreUncorrected | src/sim/cda/CalculateRedVarAvgPayoffPerStratPerProf.java:229-244 | with zero coefficients the reduced score is the looked-up average |
| RedVar.AgentScores | src/sim/cda/CalculateRedVarAvgPayoffPerStratPerProf.java:205-255 | defined exactly when every agent's lookup succeeds, one score each |
| RedVar.ReducedScores | src/sim/cda/CalculateRedVarAvgPayoffPerStratPerProf.java:205-255 | one reduced score per agent |
| RedVar.ReducedScoresDefined | src/sim/cda/CalculateRedVarAvgPayoffPerStratPerProf.java:230 | lookups succeed exactly when the sample's key is in the report with enough slots |
| RedVar.CoveredSampleReduces | src/sim/cda/CalculateRedVarAvgPayoffPerStratPerProf.java:230 | a sample whose key is in the report with a slot per strategy reduces |
| RedVar.ReducedSampleCovered | src/sim/cda/CalculateRedVarAvgPayoffPerStratPerProf.java:230 | a sample that reduces has its key in the report with a slot per strategy |
| RedVar.SampleContributionOf | src/sim/cda/CalculateRedVarAvgPayoffPerStratPerProf.java:246-267 | a reduced sample is keyed by its profile key and shaped like it |
| RedVar.ReducedContributions | src/sim/cda/CalculateRedVarAvgPayoffPerStratPerProf.java:113-284 | one contribution per sample |
| RedVar.PrefixShaped | src/sim/cda/CalculateRedVarAvgPayoffPerStratPerProf.java:113-284 | a reduced prefix is well shaped and keyed by the samples |
| RedVar.Contributions | src/sim/cda/CalculateRedVarAvgPayoffPerStratPerProf.java:113-284 | defined exactly when every sample reduces |
| RedVar.TableKeys | src/sim/cda/CalculateRedVarAvgPayoffPerStratPerProf.java:269-278 | the profiles are exactly the samples' keys |
| RedVar.KeysOfSamples | src/sim/cda/CalculateRedVarAvgPayoffPerStratPerProf.java:269-278 | the same, for any contributions keyed like the samples |
| RedVar.TablesInAverages | src/sim/cda/CalculateRedVarAvgPayoffPerStratPerProf.java:230 | every profile seen is in the input report, with at least one strategy and at least as many averages as strategies |
| RedVar.SampleInAverages | src/sim/cda/CalculateRedVarAvgPayoffPerStratPerProf.java:230 | a reduced sample's key is in the report, with at least one strategy and enough averages |
| RedVar.ReducedDeviations | src/sim/cda/CalculateRedVarAvgPayoffPerStratPerProf.java:297-411 | deviation sums for exactly the profiles seen |
| RedVar.Reduce | src/sim/cda/CalculateRedVarAvgPayoffPerStratPerProf.java:286-422 | the reduced tables, averages and stds, with every printed lookup defined |
| RedVar.InputsReportable | src/sim/cda/CalculateRedVarAvgPayoffPerStratPerProf.java:424-433 | once the console loop is through, every sampled profile has one input average per strategy, so they can be printed beside the reduced stds, and every other input profile has no averages |
| RedVar.Restrict | src/sim/cda/CalculateRedVarAvgPayoffPerStratPerProf.java:489 | the input averages of the given profiles, which are the profiles the plain-file loop visits |
| RedVar.RestrictReportable | src/sim/cda/CalculateRedVarAvgPayoffPerStratPerProf.java:489-512 | cutting the averages down to the printed profiles keeps them printable and gives exactly those profiles |
| RedVar.AveragesReportable | src/sim/cda/CalculateRedVarAvgPayoffPerStratPerProf.java:484-516 | the same, for any averages that cover the profiles and pass the console loop |
| RedVar.EntriesOf | src/sim/cda/CalculateRedVarAvgPayoffPerStratPerProf.java:447-468 | one JSON entry per profile |
| RedVar.UncorrectedContribution | src/sim/cda/CalculateRedVarAvgPayoffPerStratPerProf.java:229-267 | with zero coefficients a sample's averages are the report's |
| RedVar.UncorrectedAverages | src/sim/cda/CalculateRedVarAvgPayoffPerStratPerProf.java:286-295 | with zero coefficients the reduced averages equal the input averages of the sampled profiles |
| RedVar.AveragesOfReduced | src/sim/cda/CalculateRedVarAvgPayoffPerStratPerProf.java:286-295 | samples that agree with a table average to it |
| RedVar.UncorrectedContributions | src/sim/cda/CalculateRedVarAvgPayoffPerStratPerProf.java:229-267 | with zero coefficients every sample's averages start with its profile's input averages |
| RedVar.UncorrectedSample | src/sim/cda/CalculateRedVarAvgPayoffPerStratPerProf.java:229-267 | the same for one sample whose profile has no more input averages than strategies |
| RedVar.PlainFeedsReaders | src/sim/cda/CalculateRedVarAvgPayoffPerStratPerProf.java:484-516 | the plain file reads back as the input averages of the sampled profiles: the loop at 489 visits the profile-count map, and line 508 prints the map read from the report |
| RedVar.SampledReportReadsBack | src/sim/cda/CalculateRedVarAvgPayoffPerStratPerProf.java:489-516 | a plain report printed from any averages reads back as the averages of its own profiles |
| RedVar.RedVarPlainReadsAsInput | src/sim/cda/CalculateRedVarAvgPayoffPerStratPerProf.java:424-516 | whenever the program succeeds, the plain file reads back as the input report less the profiles no sample has, and each of those had no averages |
| RedVar.ReduceScore | src/sim/cda/CalculateRedVarAvgPayoffPerStratPerProf.java:229-244 | the unit loop computes the reduced score |
| RedVar.ReduceSample | src/sim/cda/CalculateRedVarAvgPayoffPerStratPerProf.java:205-255 | the agent loop |
| RedVar.ReducedContribution | src/sim/cda/CalculateRedVarAvgPayoffPerStratPerProf.java:246-267 | the per-strategy averages of the reduced scores |
| RedVar.ReduceContribution | src/sim/cda/CalculateRedVarAvgPayoffPerStratPerProf.java:175-267 | one sample, failing exactly where a lookup fails |
| RedVar.ReducedPass | src/sim/cda/CalculateRedVarAvgPayoffPerStratPerProf.java:108-284 | the first pass, failing exactly where a sample does |
| RedVar.ReducesStep | src/sim/cda/CalculateRedVarAvgPayoffPerStratPerProf.java:113-284 | one more reduced sample |
| RedVar.AccumulateUpTo | src/sim/cda/CalculateRedVarAvgPayoffPerStratPerProf.java:269-283 | the tables after i + 1 samples add sample i |
| RedVar.ReducedDeviationPass | src/sim/cda/CalculateRedVarAvgPayoffPerStratPerProf.java:297-411 | the second pass |
| RedVar.DeviateSample | src/sim/cda/CalculateRedVarAvgPayoffPerStratPerProf.java:344-410 | one sample's deviations |
| RedVar.CheckConsole | src/sim/cda/CalculateRedVarAvgPayoffPerStratPerProf.java:424-433 | the console loop succeeds exactly when every profile with averages has a std row at least as long; a profile with no averages is never looked up |
| RedVar.EmptyProfilePasses | src/sim/cda/CalculateRedVarAvgPayoffPerStratPerProf.java:426-430 | a profile with no averages passes the console loop even without deviations, because `stdDevs[i]` is read only for `i < avgPayoffs.length` |
| RedVar.ReducedVariancePayoffs | src/sim/cda/CalculateRedVarAvgPayoffPerStratPerProf.java:67-516 | the program writes the two files `RedVarOutput` describes |
| RedVar.ReduceAndWrite | src/sim/cda/CalculateRedVarAvgPayoffPerStratPerProf.java:108-516 | everything after reading the inputs |
| RedVar.WriteFiles | src/sim/cda/CalculateRedVarAvgPayoffPerStratPerProf.java:435-516 | the JSON and plain outputs |
| RedVar.Sized | src/sim/cda/CalculateRedVarAvgPayoffPerStratPerProf.java:67-106 | definition: the unit averages and the coefficients each have UNITS entries; `ReadInputs` proves every read input has it |
| RedVar.Correction | src/sim/cda/CalculateRedVarAvgPayoffPerStratPerProf.java:236-243 | definition of the sum over the first n units of `conVarCoeffs[u] * (normalizedValue - avgNormalizedUnitValue[u])`; `ReducedScore` is the profile average less it, and `NoCoefficientsNoCorrection` proves it 0 without coefficients |
| RedVar.Reduces | src/sim/cda/CalculateRedVarAvgPayoffPerStratPerProf.java:113-284 | definition: every one of the first n samples gets its reduced scores; the method `RedVar.ReducedPass` is proved to fail exactly where it is false |
| RedVar.SampleKeys | src/sim/cda/CalculateRedVarAvgPayoffPerStratPerProf.java:269-278 | definition of the samples' profile keys; `TableKeys` proves they are the keys of the program's profile maps |
| RedVar.ConsoleFits | src/sim/cda/CalculateRedVarAvgPayoffPerStratPerProf.java:424-433 | definition of the console loop not throwing: each profile with averages has a deviation row at least as long; the method `RedVar.CheckConsole` is proved equal to it, and `EmptyProfilePasses` proves a profile with no averages never makes it fail |
| RedVar.Outputs | src/sim/cda/CalculateRedVarAvgPayoffPerStratPerProf.java:435-516 | definition of the JSON file and the plain report; the method `RedVar.WriteFiles` is proved equal to it |
| RedVar.RedVarOutput | src/sim/cda/CalculateRedVarAvgPayoffPerStratPerProf.java:67-516 | definition of the whole program on its inputs, None where it throws; the method `RedVar.ReducedVariancePayoffs` is proved equal to it, and `RedVarPlainReadsAsInput` proves what its plain file reads back as |
| RedVar.ReducedOutput | src/sim/cda/CalculateRedVarAvgPayoffPerStratPerProf.java:108-516 | definition of the program once the three files are read; the method `RedVar.ReduceAndWrite` is proved equal to it |
| RedVar.NoCoefficients | src/sim/cda/CalculateRedVarAvgPayoffPerStratPerProf.java:243 | definition: every coefficient is 0, so line 243 subtracts nothing; `UncorrectedAverages` proves the reduced averages are then the input averages of the sampled profiles |
| RedVar.AgreesWith | src/sim/cda/CalculateRedVarAvgPayoffPerStratPerProf.java:229-233 | definition: every contribution whose profile has input averages carries those averages; `UncorrectedContributions` proves it without coefficients |
| ControlVariates.Visits | src/sim/cda/CalculateCoefficients.java:186-256 | every visited index is an agent of the sample |
| ControlVariates.VisitsMembers | src/sim/cda/CalculateCoefficients.java:240-256 | as written, the walk visits agent 0 and then only agents after index UNITS, in increasing order |
| ControlVariates.VisitsSkipAgents | src/sim/cda/CalculateCoefficients.java:240 | with 2 agents only agent 0 is visited; with UNITS + 3, agents 0, UNITS + 1 and UNITS + 2 |
| ControlVariates.VisitsNext | src/sim/cda/CalculateCoefficients.java:240-256 | the agent after a visited one |
| ControlVariates.Observe | src/sim/cda/CalculateCoefficients.java:186-237 | an agent's payoff and profile average, defined when the lookup succeeds |
| ControlVariates.ObserveAll | src/sim/cda/CalculateCoefficients.java:186-256 | defined exactly when every visited agent's lookup succeeds |
| ControlVariates.Observations | src/sim/cda/CalculateCoefficients.java:97-257 | every observation of a successful walk has its values and payoff |
| ControlVariates.ObservationsDefined | src/sim/cda/CalculateCoefficients.java:97-257 | the walk succeeds exactly when every sample's lookups succeed |
| ControlVariates.SampleMissing | src/sim/cda/CalculateCoefficients.java:237 | one failed lookup ends the whole walk |
| ControlVariates.AllObservedAppend | src/sim/cda/CalculateCoefficients.java:97-257 | observations of two samples together are still observations |
| ControlVariates.VarianceSumAppend | src/sim/cda/CalculateCoefficients.java:240-248 | sums split over concatenation |
| ControlVariates.CrossSumSymmetric | src/sim/cda/CalculateCoefficients.java:251-255 | the Sigma data is symmetric |
| ControlVariates.CrossSumDiagonal | src/sim/cda/CalculateCoefficients.java:251-255 | its diagonal is non-negative |
| ControlVariates.VarianceOnlyFirstSlot | src/sim/cda/CalculateCoefficients.java:240-248 | as written, sigma stays 0 in every slot but the first |
| ControlVariates.VarianceOfLateAgents | src/sim/cda/CalculateCoefficients.java:240-248 | agents after index UNITS add nothing to sigma |
| ControlVariates.FirstAgentVariance | src/sim/cda/CalculateCoefficients.java:240-248 | agent 0 adds its slot-0 term UNITS times |
| ControlVariates.UnitsCopies | src/sim/cda/CalculateCoefficients.java:240-248 | UNITS copies are UNITS times the term |
| ControlVariates.SampleVariance | src/sim/cda/CalculateCoefficients.java:240-248 | a sample's sigma contribution is UNITS times its first agent's slot-0 term |
| ControlVariates.VisitedIndices | src/sim/cda/CalculateCoefficients.java:240 | the walk visits agent 0 first and after it only agents past index UNITS |
| ControlVariates.Estimate | src/sim/cda/CalculateCoefficients.java:259-267 | defined exactly when K is not 1; UNITS x UNITS and UNITS sized |
| ControlVariates.CovarianceShape | src/sim/cda/CalculateCoefficients.java:251-264 | the estimated covariance is symmetric with a non-negative diagonal |
| ControlVariates.VarianceShape | src/sim/cda/CalculateCoefficients.java:240-267 | the estimated variance is 0 outside slot 0 |
| ControlVariates.CoefficientLines | src/sim/cda/CalculateCoefficients.java:277-283 | UNITS lines, defined when the solution has UNITS entries |
| ControlVariates.CoefficientLinesReadBack | src/sim/cda/CalculateCoefficients.java:277-283 | the coefficients file reads back as the solution's first UNITS entries |
| ControlVariates.CoefficientsFileReadBack | src/sim/cda/CalculateCoefficients.java:277-283 | the file the program writes is one the other programs can read |
| ControlVariates.AllAgents | src/sim/cda/CalculateCoefficients.java:187 | every agent index in order |
| ControlVariates.CorrectedVisitsEveryAgent | src/sim/cda/CalculateCoefficients.java:240 | with the loop indexed by u, every agent is observed once, in order |
| ControlVariates.AsWrittenVariance | src/sim/cda/CalculateCoefficients.java:240-248 | as written, agent 0 adds UNITS times its slot-0 term and nothing to slot 1, unlike the corrected loop |
| ControlVariates.AddVarianceCorrected | src/sim/cda/CalculateCoefficients.java:240-248 | the corrected loop adds every slot's term once |
| ControlVariates.CorrectedVarianceStep | src/sim/cda/CalculateCoefficients.java:240-248 | one more observation in the corrected sum |
| ControlVariates.AddVariance | src/sim/cda/CalculateCoefficients.java:240-248 | the loop as written: the agent index jumps to UNITS, and only slot 0 grows |
| ControlVariates.TermIs | src/sim/cda/CalculateCoefficients.java:241-247 | the loop body adds the agent's term for the slot |
| ControlVariates.AddCross | src/sim/cda/CalculateCoefficients.java:251-255 | Sigma grows by the agent's cross products on raw values |
| ControlVariates.VisitAgent | src/sim/cda/CalculateCoefficients.java:187-256 | one visited agent updates both arrays |
| ControlVariates.AgentStep | src/sim/cda/CalculateCoefficients.java:187-256 | one agent-loop iteration keeps the arrays equal to the sums |
| ControlVariates.AddSample | src/sim/cda/CalculateCoefficients.java:186-256 | one sample's agent loop |
| ControlVariates.MissedVisit | src/sim/cda/CalculateCoefficients.java:237 | a failed lookup fails the sample |
| ControlVariates.SeeNext | src/sim/cda/CalculateCoefficients.java:186-256 | the visited prefix grows by one |
| ControlVariates.SawAll | src/sim/cda/CalculateCoefficients.java:186-256 | visiting to the end gives the sample's observations |
| ControlVariates.AverageCovariance | src/sim/cda/CalculateCoefficients.java:260-264 | every Sigma entry is divided by K - 1 |
| ControlVariates.AverageVariance | src/sim/cda/CalculateCoefficients.java:265-267 | every sigma entry is divided by K - 1 |
| ControlVariates.Averaged | src/sim/cda/CalculateCoefficients.java:259-267 | the divided arrays are the estimates |
| ControlVariates.WriteCoefficients | src/sim/cda/CalculateCoefficients.java:277-283 | the write loop |
| ControlVariates.WalkSamples | src/sim/cda/CalculateCoefficients.java:97-257 | the sample walk: K is the number of visited agents and the arrays hold their sums |
| ControlVariates.CalculateCoefficients | src/sim/cda/CalculateCoefficients.java:56-283 | the program writes the file `CoefficientsFile` describes |
| ControlVariates.Observed | src/sim/cda/CalculateCoefficients.java:200-222 | definition of an observation with at least UNITS values, which the Sigma loop at line 253 reads |
| ControlVariates.AllObserved | src/sim/cda/CalculateCoefficients.java:186-256 | every observation is `Observed`; `Observations` guarantees it |
| ControlVariates.SampleObservations | src/sim/cda/CalculateCoefficients.java:186-237 | definition of the agents the walk visits in one sample, agent 0 then UNITS + 1 onwards, None where Java throws; `SampleMissing` proves one such sample ends the whole walk |
| ControlVariates.Cross | src/sim/cda/CalculateCoefficients.java:251-255 | definition of what the Sigma loops add at (q, r) for one agent; the method `ControlVariates.AddCross` is proved to add it |
| ControlVariates.CrossSum | src/sim/cda/CalculateCoefficients.java:251-255 | definition of the summed cross products; `CrossSumSymmetric` and `CrossSumDiagonal` are proved about it, and `Holds` ties `SigmaData` to it |
| ControlVariates.Term | src/sim/cda/CalculateCoefficients.java:240-248 | definition of the payoff's distance from its profile average times unit u's normalised distance from its average; `TermIs` and `AsWrittenVariance` are stated with it |
| ControlVariates.Repeats | src/sim/cda/CalculateCoefficients.java:240 | definition of how often the variance loop body runs for an agent at index i: UNITS - i times, none once i is UNITS or more |
| ControlVariates.VarianceAdded | src/sim/cda/CalculateCoefficients.java:240-248 | definition of what the quirky loop adds to slot u for one agent, `Term` at slot 0 `Repeats` times and nothing elsewhere; the method `ControlVariates.AddVariance` is proved to add it |
| ControlVariates.VarianceSum | src/sim/cda/CalculateCoefficients.java:240-248 | definition of the summed variance data; `VarianceOnlyFirstSlot`, `VarianceOfLateAgents` and `FirstAgentVariance` prove what the quirk leaves in it, and `Holds` ties `sigmaData` to it |
| ControlVariates.CorrectedSampleObservations | src/sim/cda/CalculateCoefficients.java:186-256 | definition of the agents the corrected loop visits, every agent in order; `CorrectedVisitsEveryAgent` proves it |
| ControlVariates.CorrectedVarianceSum | src/sim/cda/CalculateCoefficients.java:240-248 | definition of the corrected variance data, each slot summing every agent's term once; `CorrectedVarianceStep` proves one more agent adds its `Term`, which is what `AddVarianceCorrected` adds |
| ControlVariates.Holds | src/sim/cda/CalculateCoefficients.java:186-256 | definition: `SigmaData` and `sigmaData` hold `CrossSum` and `VarianceSum` of the observations so far; the loops of `ControlVariates.WalkSamples` keep it |
| ControlVariates.Saw | src/sim/cda/CalculateCoefficients.java:186-256 | definition: the agent loop has seen the agents visited among the first m, in order; `SeeNext` and `SawAll` are proved about it |
| ControlVariates.CoefficientsFile | src/sim/cda/CalculateCoefficients.java:56-283 | definition of the coefficients file the program writes; the method `ControlVariates.CalculateCoefficients` is proved equal to it, and `CoefficientsFileReadBack` proves it has UNITS lines that the coefficient reader accepts |
| VarianceRatio.ReadRatioInputs | src/sim/cda/CalculateVarianceReductionRatio.java:62-123 | the four inputs; the "reduced" map is read from the average payoffs file and so equals the averages |
| VarianceRatio.Seeded | src/sim/cda/CalculateVarianceReductionRatio.java:224-226 | a profile gets an empty map only if absent; others are unchanged |
| VarianceRatio.Filter | src/sim/cda/CalculateVarianceReductionRatio.java:280 | the payoffs of one profile and strategy |
| VarianceRatio.SeededFiltered | src/sim/cda/CalculateVarianceReductionRatio.java:224-226 | seeding keeps the lists' meaning |
| VarianceRatio.AppendFiltered | src/sim/cda/CalculateVarianceReductionRatio.java:240-280 | appending one payoff keeps the lists' meaning |
| VarianceRatio.NoneFiltered | src/sim/cda/CalculateVarianceReductionRatio.java:280 | no matching entries, an empty list |
| VarianceRatio.AppendAllFiltered | src/sim/cda/CalculateVarianceReductionRatio.java:240-280 | appending many keeps it |
| VarianceRatio.Pairs | src/sim/cda/CalculateVarianceReductionRatio.java:280 | the (profile, strategy) labels |
| VarianceRatio.FilterCount | src/sim/cda/CalculateVarianceReductionRatio.java:280 | a list's length is its label's multiplicity |
| VarianceRatio.Tagged | src/sim/cda/CalculateVarianceReductionRatio.java:228-281 | a sample's visited agents, labelled |
| VarianceRatio.SampleIndexed | src/sim/cda/CalculateVarianceReductionRatio.java:228-281 | visited indices are agents |
| VarianceRatio.Entries | src/sim/cda/CalculateVarianceReductionRatio.java:134-304 | every visited agent's payoff, labelled |
| VarianceRatio.ListsPartitionPayoffs | src/sim/cda/CalculateVarianceReductionRatio.java:224-281 | each stored list holds exactly its profile's and strategy's visited payoffs, in order |
| VarianceRatio.ListLengthsTotalK | src/sim/cda/CalculateVarianceReductionRatio.java:230-281 | the lists' lengths add up to K |
| VarianceRatio.PairIndex | src/sim/cda/CalculateVarianceReductionRatio.java:280 | a label that occurs has an entry |
| VarianceRatio.Payoffs | src/sim/cda/CalculateVarianceReductionRatio.java:281 | `allPayoffs`: every visited agent's payoff in order |
| VarianceRatio.SquaredDeviations | src/sim/cda/CalculateVarianceReductionRatio.java:344 | non-negative |
| VarianceRatio.PayoffVariance | src/sim/cda/CalculateVarianceReductionRatio.java:344 | the bias-corrected variance: defined exactly for non-empty input, non-negative |
| VarianceRatio.ConstantTotal | src/sim/cda/CalculateVarianceReductionRatio.java:344 | n equal values total n times the value |
| VarianceRatio.NoDeviations | src/sim/cda/CalculateVarianceReductionRatio.java:344 | equal values do not deviate |
| VarianceRatio.ConstantPayoffsVariance | src/sim/cda/CalculateVarianceReductionRatio.java:344 | equal payoffs have variance 0 |
| VarianceRatio.Numerator | src/sim/cda/CalculateVarianceReductionRatio.java:316-324 | sigma' (Sigma^-1 sigma), defined when the dimensions match |
| VarianceRatio.DotFirstSlot | src/sim/cda/CalculateVarianceReductionRatio.java:323-324 | a vector zero outside slot 0 meets another only in slot 0 |
| VarianceRatio.Ratio | src/sim/cda/CalculateVarianceReductionRatio.java:345 | defined exactly when K != UNITS + 2 and the variance is not 0; satisfies R (K - UNITS - 2) var = (K - 2)(var - numerator) |
| VarianceRatio.RatioExtremes | src/sim/cda/CalculateVarianceReductionRatio.java:345 | a zero numerator leaves (K-2)/(K-UNITS-2); numerator == variance gives 0 |
| VarianceRatio.NumeratorFirstSlot | src/sim/cda/CalculateVarianceReductionRatio.java:287-324 | as written, the numerator uses only the first slot of the solution |
| VarianceRatio.VarianceTail | src/sim/cda/CalculateVarianceReductionRatio.java:287-314 | the estimated variance vanishes outside slot 0 |
| VarianceRatio.RatioStep | src/sim/cda/CalculateVarianceReductionRatio.java:228-303 | one agent-loop iteration keeps the arrays and the lists in step |
| VarianceRatio.Record | src/sim/cda/CalculateVarianceReductionRatio.java:240-281 | recording one payoff in both lists |
| VarianceRatio.AppendInPlace | src/sim/cda/CalculateVarianceReductionRatio.java:240-242 | the in-place list append |
| VarianceRatio.RecordStep | src/sim/cda/CalculateVarianceReductionRatio.java:280 | recording agrees with labelling |
| VarianceRatio.AppendAllSnoc | src/sim/cda/CalculateVarianceReductionRatio.java:280 | appending a list of payoffs and then one more is appending the longer list |
| VarianceRatio.TaggedAppend | src/sim/cda/CalculateVarianceReductionRatio.java:280 | labelling one more agent |
| VarianceRatio.RatioSample | src/sim/cda/CalculateVarianceReductionRatio.java:195-303 | one sample |
| VarianceRatio.PayoffsStep | src/sim/cda/CalculateVarianceReductionRatio.java:281 | one more payoff |
| VarianceRatio.WalkRatioSamples | src/sim/cda/CalculateVarianceReductionRatio.java:134-304 | the walk: K visited agents, the arrays hold their sums, `allPayoffs` their payoffs, and the lists partition them |
| VarianceRatio.WalkStep | src/sim/cda/CalculateVarianceReductionRatio.java:134-304 | one more sample |
| VarianceRatio.WalkSample | src/sim/cda/CalculateVarianceReductionRatio.java:134-304 | one pass of the outer loop: the sample's walk extends the observations, the arrays' sums, the lists and `allPayoffs`, or a failed lookup ends the walk |
| VarianceRatio.ObservationsStep | src/sim/cda/CalculateVarianceReductionRatio.java:134-304 | observations of a longer prefix |
| VarianceRatio.ListsStep | src/sim/cda/CalculateVarianceReductionRatio.java:224-281 | lists of a longer prefix |
| VarianceRatio.PayoffsAppend | src/sim/cda/CalculateVarianceReductionRatio.java:281 | payoffs split over concatenation |
| VarianceRatio.PayoffArray | src/sim/cda/CalculateVarianceReductionRatio.java:340-343 | a fresh array holding the payoffs |
| VarianceRatio.CalculateVarianceReductionRatio | src/sim/cda/CalculateVarianceReductionRatio.java:62-346 | the program prints the number `RatioOutput` describes |
| VarianceRatio.ReadInputs | src/sim/cda/CalculateVarianceReductionRatio.java:62-123 | the four files are read as `ReadRatioInputs` describes, stopping at the first that cannot be read |
| VarianceRatio.Append | src/sim/cda/CalculateVarianceReductionRatio.java:240-280 | definition of one payoff added to its profile's list for its strategy, the list created when missing; `AppendFiltered` proves it keeps `Filtered` |
| VarianceRatio.AppendAll | src/sim/cda/CalculateVarianceReductionRatio.java:224-281 | definition of the entries appended in order; `AppendAllFiltered` proves it yields lists that are `Filtered` |
| VarianceRatio.Filtered | src/sim/cda/CalculateVarianceReductionRatio.java:224-281 | definition: a list exists for every entry's profile and strategy, and each holds exactly its entries' payoffs in order; `ListsPartitionPayoffs` is proved with it |
| VarianceRatio.PayoffListsOf | src/sim/cda/CalculateVarianceReductionRatio.java:224-281 | definition of `profileStrategyPayoffs` after the walk; `VarianceRatio.WalkRatioSamples` is proved to build it |
| VarianceRatio.Recorded | src/sim/cda/CalculateVarianceReductionRatio.java:240-281 | definition of what one sample's loop has recorded after the agents seen; `VarianceRatio.Record` and `RatioStep` keep it |
| VarianceRatio.SampleIndexedBy | src/sim/cda/CalculateVarianceReductionRatio.java:240-281 | definition: every observation names an agent of the sample |
| VarianceRatio.Total | src/sim/cda/CalculateVarianceReductionRatio.java:344 | definition of the sum of the payoffs; `ConstantTotal` proves n equal payoffs sum to n times the payoff |
| VarianceRatio.Dot | src/sim/cda/CalculateVarianceReductionRatio.java:323-324 | definition of the dot product; `DotFirstSlot` proves that a vector non-zero only in slot 0 meets the other in that slot alone |
| VarianceRatio.RatioOutput | src/sim/cda/CalculateVarianceReductionRatio.java:62-346 | definition of the number the program prints, None where it throws or prints NaN or Infinity; the method `VarianceRatio.CalculateVarianceReductionRatio` is proved equal to it |
| NormalizedUnitValues.Slots | src/sim/cda/CalculateAverageNormalizedUnitValue.java:66-70 | defined exactly when an agent has at most UNITS values; they fill the first slots, the rest are 0 |
| NormalizedUnitValues.SlotsBuyerFullAgent | src/sim/cda/CalculateAverageNormalizedUnitValue.java:74 | for a full agent, `vi[0] > vi[9]` is the buyer test on its values |
| NormalizedUnitValues.AgentsOf | src/sim/cda/CalculateAverageNormalizedUnitValue.java:43-56 | the agents of all samples, in sample order |
| NormalizedUnitValues.SlotSums | src/sim/cda/CalculateAverageNormalizedUnitValue.java:56-89 | defined exactly when no agent has more than UNITS values |
| NormalizedUnitValues.Added | src/sim/cda/CalculateAverageNormalizedUnitValue.java:77-85 | every slot grows by the agent's normalized value |
| NormalizedUnitValues.AverageValues | src/sim/cda/CalculateAverageNormalizedUnitValue.java:91-95 | defined exactly when the sums are and there is an agent; each slot is its sum over the agent count |
| NormalizedUnitValues.UnitValueLines | src/sim/cda/CalculateAverageNormalizedUnitValue.java:98-102 | UNITS lines exactly when the averages exist |
| NormalizedUnitValues.SlotSumsBounded | src/sim/cda/CalculateAverageNormalizedUnitValue.java:77-85 | with values in range, every slot sum lies between 0 and count * (V_MAX - V_MIN) |
| NormalizedUnitValues.AverageRange | src/sim/cda/CalculateAverageNormalizedUnitValue.java:91-95 | with values in range, every average lies in [0, V_MAX - V_MIN] |
| NormalizedUnitValues.QuotientBounded | src/sim/cda/CalculateAverageNormalizedUnitValue.java:94 | divided bounds |
| NormalizedUnitValues.UnitValueLinesReadBack | src/sim/cda/CalculateAverageNormalizedUnitValue.java:98-103 | the file reads back as the averages |
| NormalizedUnitValues.ShownValuesReadBack | src/sim/cda/CalculateAverageNormalizedUnitValue.java:98-103 | any UNITS written values read back |
| NormalizedUnitValues.ReadSlots | src/sim/cda/CalculateAverageNormalizedUnitValue.java:66-70 | the read loop, failing on an eleventh value |
| NormalizedUnitValues.AddAgent | src/sim/cda/CalculateAverageNormalizedUnitValue.java:77-85 | the in-place update of `vSum` |
| NormalizedUnitValues.AddSample | src/sim/cda/CalculateAverageNormalizedUnitValue.java:56-88 | one sample's agents; count and `vSum` stay the sums |
| NormalizedUnitValues.MissedAgent | src/sim/cda/CalculateAverageNormalizedUnitValue.java:67-69 | an agent with too many values fails the run |
| NormalizedUnitValues.Average | src/sim/cda/CalculateAverageNormalizedUnitValue.java:92-95 | a fresh array of the averages |
| NormalizedUnitValues.WriteLines | src/sim/cda/CalculateAverageNormalizedUnitValue.java:98-102 | one line per slot |
| NormalizedUnitValues.CalculateAverageNormalizedUnitValue | src/sim/cda/CalculateAverageNormalizedUnitValue.java:38-103 | the program writes the file `UnitValueLines` describes |
| NormalizedUnitValues.SlotSumsPrefix | src/sim/cda/CalculateAverageNormalizedUnitValue.java:43-89 | a failure in some samples fails the run |
| NormalizedUnitValues.SlotsBuyer | src/sim/cda/CalculateAverageNormalizedUnitValue.java:74 | definition of `vi[0] > vi[9]`; `SlotsBuyerFullAgent` proves it is the `Market.IsBuyer` test for an agent with exactly UNITS values |
| NormalizedUnitValues.SlotValue | src/sim/cda/CalculateAverageNormalizedUnitValue.java:77-85 | definition of the normalised value of slot j: `vi[j] - V_MIN` for a buyer, `V_MAX - vi[j]` otherwise; `Added` and `SlotSumsBounded` are stated with it |
| NormalizedUnitValues.InRange | src/sim/cda/CalculateAverageNormalizedUnitValue.java:77-95 | definition of agents with UNITS values between V_MIN and V_MAX; `SlotSumsBounded` and `AverageRange` prove the averages then lie in [0, V_MAX - V_MIN] |
| PayoffMatrix.StrategyName | src/sim/cda/ConvertPayoffMatrix.java:44-52 | ids 0 to 6 name a strategy, and no others |
| PayoffMatrix.StrategyNameInjective | src/sim/cda/ConvertPayoffMatrix.java:44-52 | distinct ids name distinct strategies |
| PayoffMatrix.NamesAreTokens | src/sim/cda/ConvertPayoffMatrix.java:44-52 | the names are non-empty and space-free |
| PayoffMatrix.FirstInvalid | src/sim/cda/ConvertPayoffMatrix.java:77-86 | the first position whose id or payoff is not usable |
| PayoffMatrix.LineOutcome | src/sim/cda/ConvertPayoffMatrix.java:77-86 | a line is a row exactly when all four positions are usable, and skipped exactly when the first bad one has an unknown id |
| PayoffMatrix.RowContents | src/sim/cda/ConvertPayoffMatrix.java:77-86 | a row holds the four names, and each name maps to the payoff at its last position |
| PayoffMatrix.ConvertFromStep | src/sim/cda/ConvertPayoffMatrix.java:77-86 | a valid position is consumed; at any other the line yields no row |
| PayoffMatrix.LastPayoffsExtend | src/sim/cda/ConvertPayoffMatrix.java:85 | after payoffMap.put, every strategy's last position still holds its stored payoff |
| PayoffMatrix.ParsedLine | src/sim/cda/ConvertPayoffMatrix.java:73-86 | a parsed line's row has four known names and their payoffs |
| PayoffMatrix.MatrixKeyTokens | src/sim/cda/ConvertPayoffMatrix.java:99-104 | two tokens per position |
| PayoffMatrix.MatrixKeyTokensAt | src/sim/cda/ConvertPayoffMatrix.java:99-104 | position j's count, undivided, is token 2j and its strategy token 2j + 1 |
| PayoffMatrix.MatrixKeyTokensAreWords | src/sim/cda/ConvertPayoffMatrix.java:99-104 | no token holds a space when no strategy name does |
| PayoffMatrix.MatrixKeySplit | src/sim/cda/ConvertPayoffMatrix.java:99-105 | the key splits into those tokens, counts undivided |
| PayoffMatrix.MatrixKeyStrategies | src/sim/cda/ConvertPayoffMatrix.java:99-105 | the key determines the row's strategies |
| PayoffMatrix.MatrixKeyInjective | src/sim/cda/ConvertPayoffMatrix.java:99-105 | different strategy rows have different keys |
| PayoffMatrix.TallyTotalAnyOrder | src/sim/cda/ConvertPayoffMatrix.java:89-96 | counts listed in any order total the number of players |
| PayoffMatrix.CountTotalEmpty | src/sim/cda/ConvertPayoffMatrix.java:89 | nothing counted, total 0 |
| PayoffMatrix.CountTotalInsert | src/sim/cda/ConvertPayoffMatrix.java:92 | a new strategy adds one |
| PayoffMatrix.EndOfMatrixStops | src/sim/cda/ConvertPayoffMatrix.java:61-65 | nothing after `];` is read |
| PayoffMatrix.HeaderDiscarded | src/sim/cda/ConvertPayoffMatrix.java:54-56 | the 18 header lines do not matter |
| PayoffMatrix.UnknownIdLineDropped | src/sim/cda/ConvertPayoffMatrix.java:80-82 | a line with an unknown id is skipped |
| PayoffMatrix.MalformedLineFails | src/sim/cda/ConvertPayoffMatrix.java:79-85 | a line whose number does not parse ends the run |
| PayoffMatrix.ReadRowsWellFormed | src/sim/cda/ConvertPayoffMatrix.java:58-112 | every row read is well formed |
| PayoffMatrix.LastWith | src/sim/cda/ConvertPayoffMatrix.java:107-111 | the last row with a key |
| PayoffMatrix.LaterRowWins | src/sim/cda/ConvertPayoffMatrix.java:107-111 | a key is in the game exactly when some row has it; the last such row's payoffs and counts win |
| PayoffMatrix.BuildGameConsistent | src/sim/cda/ConvertPayoffMatrix.java:88-111 | every stored key names its counts and the payoffs' strategies |
| PayoffMatrix.NewKeyConsistent | src/sim/cda/ConvertPayoffMatrix.java:88-111 | a fresh row is consistent with its key |
| PayoffMatrix.RecordConsistent | src/sim/cda/ConvertPayoffMatrix.java:107-111 | storing a row keeps consistency |
| PayoffMatrix.StoreConsistent | src/sim/cda/ConvertPayoffMatrix.java:107-111 | storing an entry that agrees with its key keeps the maps consistent |
| PayoffMatrix.ReadGameConsistent | src/sim/cda/ConvertPayoffMatrix.java:58-112 | the game read is consistent |
| PayoffMatrix.MatrixStrategies | src/sim/cda/ConvertPayoffMatrix.java:137-146 | one entry per listed strategy |
| PayoffMatrix.MatrixEntries | src/sim/cda/ConvertPayoffMatrix.java:129-154 | one entry per profile |
| PayoffMatrix.PrintedCountsAreCountTotal | src/sim/cda/ConvertPayoffMatrix.java:139 | the printed counts add up to the count total |
| PayoffMatrix.MatrixEntriesLayout | src/sim/cda/ConvertPayoffMatrix.java:131-141 | every profile prints sample_count 1, payoff_std 0 and counts totalling 4 players |
| PayoffMatrix.CleanUp | src/sim/cda/ConvertPayoffMatrix.java:67-69 | the loop collapses space runs and leaves no double space |
| PayoffMatrix.ConvertLine | src/sim/cda/ConvertPayoffMatrix.java:71-86 | the position loop with its labelled continue |
| PayoffMatrix.CountStrategies | src/sim/cda/ConvertPayoffMatrix.java:89-96 | the counts of the row's strategies |
| PayoffMatrix.BuildMatrixKey | src/sim/cda/ConvertPayoffMatrix.java:99-105 | the key loop |
| PayoffMatrix.RecordRow | src/sim/cda/ConvertPayoffMatrix.java:107-111 | the two puts |
| PayoffMatrix.PrependRow | src/sim/cda/ConvertPayoffMatrix.java:58-112 | rows read so far and rows still to read combine |
| PayoffMatrix.SkipHeader | src/sim/cda/ConvertPayoffMatrix.java:54-56 | the header loop |
| PayoffMatrix.ReadMatrix | src/sim/cda/ConvertPayoffMatrix.java:54-112 | the read loop yields `ReadGame` |
| PayoffMatrix.LineStep | src/sim/cda/ConvertPayoffMatrix.java:60-112 | one line of the read loop |
| PayoffMatrix.ConvertPayoffMatrix | src/sim/cda/ConvertPayoffMatrix.java:40-157 | the program prints the JSON `MatrixOutput` describes |
| PayoffMatrix.Tokens | src/sim/cda/ConvertPayoffMatrix.java:61-71 | definition of a line's tokens: trimmed, spaces collapsed, split on a space; `ParsedLine` is stated with it |
| PayoffMatrix.NameAt | src/sim/cda/ConvertPayoffMatrix.java:79-83 | definition of the strategy name at position i when the token is an int the table knows |
| PayoffMatrix.PayoffAt | src/sim/cda/ConvertPayoffMatrix.java:85 | definition of the payoff at position i, token i + 4 read as a double |
| PayoffMatrix.ValidAt | src/sim/cda/ConvertPayoffMatrix.java:79-85 | definition of a position with a known id and a readable payoff; `FirstInvalid` and `ConvertFromStep` are stated with it |
| PayoffMatrix.UnknownIdAt | src/sim/cda/ConvertPayoffMatrix.java:80-82 | definition of a position holding an int the table does not know, which skips the line; `UnknownIdLineDropped` proves such a line is dropped |
| PayoffMatrix.ConvertFrom | src/sim/cda/ConvertPayoffMatrix.java:77-86 | definition of the position loop from i on; the method `PayoffMatrix.ConvertLine` is proved equal to it, and `LineOutcome` proves when it gives a row, a skip or an exception |
| PayoffMatrix.ParseLine | src/sim/cda/ConvertPayoffMatrix.java:60-86 | definition of one cleaned line's outcome; `ParsedLine` proves a row from it is the row its tokens describe |
| PayoffMatrix.LastAt | src/sim/cda/ConvertPayoffMatrix.java:85 | definition: no later position holds the same strategy, so its payoff is the one `put` keeps |
| PayoffMatrix.RowOf | src/sim/cda/ConvertPayoffMatrix.java:77-86 | definition of a row read from the tokens: the four strategies, and each strategy's payoff from its last position; `ParsedLine` proves parsed rows satisfy it |
| PayoffMatrix.WellFormedRow | src/sim/cda/ConvertPayoffMatrix.java:77-86 | definition of four strategies from the table with payoffs for exactly those; `ReadRowsWellFormed` proves every parsed row has it |
| PayoffMatrix.MatrixKey | src/sim/cda/ConvertPayoffMatrix.java:99-105 | definition of a row's key, count and name per position joined on a space; `PayoffMatrix.BuildMatrixKey` is proved to build it, and `MatrixKeySplit`, `MatrixKeyStrategies` and `MatrixKeyInjective` are proved about it |
| PayoffMatrix.Record | src/sim/cda/ConvertPayoffMatrix.java:107-111 | definition of the two puts of one row; the method `PayoffMatrix.RecordRow` is proved equal to it, and `RecordConsistent` proves it keeps `Consistent` |
| PayoffMatrix.BuildGame | src/sim/cda/ConvertPayoffMatrix.java:58-112 | definition of the maps after the rows in file order; `BuildGameConsistent` proves it `Consistent` and `LaterRowWins` that a later row with the same key wins |
| PayoffMatrix.ReadRows | src/sim/cda/ConvertPayoffMatrix.java:58-112 | definition of the rows up to the line "];", None where a line throws; `EndOfMatrixStops`, `UnknownIdLineDropped`, `MalformedLineFails` and `ReadRowsWellFormed` are proved about it |
| PayoffMatrix.Body | src/sim/cda/ConvertPayoffMatrix.java:54-56 | definition of the lines after the HEADER_LINES discarded ones; the method `PayoffMatrix.SkipHeader` is proved to stop where it starts |
| PayoffMatrix.Prepended | src/sim/cda/ConvertPayoffMatrix.java:58-112 | definition of the rows read so far followed by the rest; the loop of `PayoffMatrix.ReadMatrix` keeps `Prepended(rows, ReadRows(rest))` equal to the answer |
| PayoffMatrix.ReadGame | src/sim/cda/ConvertPayoffMatrix.java:54-112 | definition of the two maps after reading the file, None where it throws; the method `PayoffMatrix.ReadMatrix` is proved equal to it, and `ReadGameConsistent` proves it `Consistent` |
| PayoffMatrix.KeyConsistent | src/sim/cda/ConvertPayoffMatrix.java:88-111 | definition: the counts and payoffs under a key are for the four strategies the key names, the counts being their tally |
| PayoffMatrix.Consistent | src/sim/cda/ConvertPayoffMatrix.java:107-111 | definition: both maps have the same keys and each key is `KeyConsistent` |
| PayoffMatrix.Listed | src/sim/cda/ConvertPayoffMatrix.java:130-137 | the HashMap iteration order taken as given: each key of `originalGame` once, and each profile's strategies once |
| PayoffMatrix.PrintedCountTotal | src/sim/cda/ConvertPayoffMatrix.java:139 | definition of the summed printed counts; `PrintedCountsAreCountTotal` and `MatrixEntriesLayout` prove they sum to PLAYERS |
| PayoffMatrix.MatrixOutput | src/sim/cda/ConvertPayoffMatrix.java:40-157 | definition of the JSON file, None where reading throws; the method `PayoffMatrix.ConvertPayoffMatrix` is proved to print it |

## Left out

- XML parsing, directory listing and the ".xml" file-name filter: samples arrive as values.
- Argument-count and file-existence checks, and file reading and writing: inputs and outputs are line sequences.
- Console prints: only RedVar's console loop is modelled, as `CheckConsole`, because it can throw.
- Double arithmetic: sums, means and products are exact reals. Rounding is not modelled.
- `Double.toString`, `Double.valueOf`, `Math.sqrt` and the LU decomposition are passed in as functions (`show`, `toReal`, `sqrt`, `solve`).
- HashMap iteration order is passed in (`order`, `listing`).
- NaN and Infinity are modelled as `None`. This covers a division by K - 1 with K == 1, a ratio with K == UNITS + 2 or zero variance, and a unit average with no agents.
- Samples are well formed: repetition ids 1 to REPS, no self-trade, at least one agent, at least UNITS values per agent, and non-empty, space-free strategy names. Some excluded samples make Java throw; the model has no output for them:
  - a repetition id outside 1 to REPS, because `transactionPrices.get(id)` is out of range (CalculateAveragePayoffPerStratPerProf.java:75-95);
  - a sample with no agents, because `deleteCharAt(-1)` in Utils.java:22 throws;
  - fewer than UNITS values for any agent in CalculateRedVarAvgPayoffPerStratPerProf (lines 236-243), and for a visited agent (agent 0, then UNITS + 1 onwards, as `Visits` lists them) in the Sigma loops of CalculateCoefficients (line 253) and CalculateVarianceReductionRatio (line 300), because they read `values.get(q)` up to UNITS - 1.
- The other excluded samples are accepted by Java, and the model does not say what Java computes for them:
  - a self-trade (buyerID == sellerID) appends the price twice to one list (CalculateAveragePayoffPerStratPerProf.java:95-106), so the agent pays both prices in its payoff (lines 144-151); only a list that already held UNITS - 1 prices makes Java throw, because it grows to UNITS + 1 and the payoff loop then writes `payoffPerUnitPerRepetition[r][UNITS]`;
  - in CalculateAveragePayoffPerStratPerProf, an agent with fewer than UNITS values runs through the payoff loop while it trades no more units than it has values, because `values.get(p)` is only read for `p < prices.size()`;
  - in CalculateCoefficients and CalculateVarianceReductionRatio, agents 1 to UNITS are skipped: during agent 0's turn the sigma loop's `i++` (CalculateCoefficients.java:240, CalculateVarianceReductionRatio.java:287) moves the agent index to UNITS, so agents 1 to UNITS never have their `<values>` read, and a short or empty value list there is accepted (CalculateCoefficients.java:187-256, CalculateVarianceReductionRatio.java:229-303). `WellFormed` (market.dfy:47-53) still demands UNITS values of them, which is more than these two programs need;
  - strategy names that are empty or contain spaces are used as they are by every program, and a profile key then no longer splits into one count and one name per strategy.
- RedVar's transaction bucketing (lines 123-173) is not modelled, because nothing reads the buckets.
- VarianceRatio's per-profile lists are modelled, but nothing reads them except the commented-out code at lines 326-337. That code is not modelled.
- VarianceRatio reads its coefficients file and its reduced-payoff file. `redVarPayoffsFile` is never read: the "reduced" map is read from the average-payoffs file. Both facts are modelled as written.
- Profile keys use count/4, as the code at CalculateAveragePayoffPerStratPerProf.java:184 does: four agents A, A, B, B give "0 A 0 B". The code is followed here.
- The Sigma loop uses raw values where sigma uses normalized ones. This is modelled as written.
- ConvertPayoffMatrix: an id or payoff that does not parse throws in Java. This is modelled as no output (`None`).
- ConvertPayoffMatrix: `readLine` returning null inside the header is covered by `Body`.
- VarianceRatio.ConstantPayoffsVariance: proves only that equal payoffs give variance 0. Zero variance for unequal payoffs is not proved.
- JavaStrings.Less: compares strings by Unicode scalar values, while Java's `compareTo` compares UTF-16 code units. The two orders differ between supplementary characters and U+E000 to U+FFFF. JavaStrings.ParseInt accepts ASCII digits only, while `Integer.valueOf` also accepts the other digits `Character.digit` knows.
- Utils.Join: covered for every separator as written. The claim that the result equals the separator-join is proved only for separators of at most one character, which is all the programs use.

## Findings

| source | as written | input that shows it | evidently intended | confidence | as-written member | corrected member |
|---|---|---|---|---|---|---|
| src/sim/cda/Utils.java:21-23 | deletes characters at length-i-1 after each earlier deletion, so a separator of two or more characters loses inner characters | `join({"a","b"}, ", ")` gives "a, ," | remove only the trailing separator: "a, b" | not executed | Utils.JoinTwoCharSeparator | Utils.JoinCorrected |
| src/sim/cda/CalculateCoefficients.java:240-248 | `for (int u = 0; i < UNITS; i++)` tests and increments the agent index: sigma only grows in slot 0, agent 0 counts UNITS times, and agents 1 to UNITS are skipped | a sample with 2 agents visits only agent 0; with UNITS + 3 agents it visits 0, UNITS + 1 and UNITS + 2 | loop over u for every agent | not executed | ControlVariates.AsWrittenVariance | ControlVariates.AddVarianceCorrected |
| src/sim/cda/CalculateVarianceReductionRatio.java:287-295 | the same loop, so K counts only the visited agents and the numerator uses only slot 0 | as above | loop over u | not executed | ControlVariates.VisitsSkipAgents | ControlVariates.CorrectedVisitsEveryAgent |
