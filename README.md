# VerdictDB scrambling core — a Dafny model

VerdictDB answers aggregate queries approximately from *scrambles*: copies of a table whose rows are
split into blocks (and tiers) so that a query can read a growing sample. This project models the
layer that sets up a scramble and two small query-plan objects:

- **ScramblingCoordinator** (module `Coordinator`). It holds a default option table
  (`tierColumnName`, `blockColumnName`, `scrambleTableSuffix`, `scrambleTableBlockSize`). A
  scramble request goes through these steps:
  - the method name is validated case-insensitively against `uniform` and `fastconverge`;
  - the caller's options are merged over the defaults, key by key;
  - the block size is parsed;
  - one of three method constructors is picked;
  - the scrambling plan is handed to the runner;
  - a `ScrambleMeta` is assembled, whose distribution map holds the tiers `0 .. tierCount-1`.

  The seven-argument `scramble` is an imperative method. It keeps the source's two merge loops and
  its tier loop, and it is proved equal to the specification function `ScrambleOutcome`. The four
  shorter overloads delegate to it with defaulted arguments.
- **ScramblingMethodBase** (module `Scrambling`, class `ScramblingMethod`). It stores the
  block-size parameters and a tier → cumulative-distribution map that is updated in place.
- **AggExecutionNode** (module `Querying`). It adds `aggMeta` and `dependentQuery` to the token its
  parent produces. Its `deepcopy` gives a fresh select-list copy to the *original* node, not to the
  copy.
- **SubqueryColumn** (module `SqlObject`). It is a mutable holder of one subquery. Its `deepcopy`
  returns the same object.

Module `Values` holds Java's `long` and `int` ranges and the `Option` and `Result` wrappers. Module
`Text` holds the few `java.lang` string operations the coordinator relies on:
- `toLowerCase` and `equalsIgnoreCase`;
- `String.valueOf(long)`;
- `Double.valueOf(text).longValue()`.

Code that is not part of this model enters as parameters. Plan creation and execution, and the
concrete methods' decisions, are one function `runPlan` in `Coordinator.Collaborators`. The
inherited parts of the query-plan node are opaque values or function parameters.

## Model

| member | source | states |
|---|---|---|
| Coordinator.InitialOptions | src/main/java/org/verdictdb/coordinator/ScramblingCoordinator.java:28-62 | the table has exactly the four default keys; a given block size replaces only the block-size entry, written with `String.valueOf`; in the exact decimal reading, the block-size entry reads back as the given size (in Java exactly only up to 2^53 in magnitude), or as 1000000 by default |
| Coordinator.DispatchTests | src/main/java/org/verdictdb/coordinator/ScramblingCoordinator.java:119-140 | a name whose lower case is `uniform` passes the dispatch's `equalsIgnoreCase("uniform")`, and one whose lower case is `fastconverge` passes `equalsIgnoreCase("FastConverge")` |
| Coordinator.IsSupportedMethod | src/main/java/org/verdictdb/coordinator/ScramblingCoordinator.java:119-121 | a name passes the sanity check only if the dispatch's `equalsIgnoreCase` matches it to "uniform" or "FastConverge" |
| Coordinator.TierDistributions | src/main/java/org/verdictdb/coordinator/ScramblingCoordinator.java:155-159 | the meta's map has exactly the keys 0 to tierCount-1, each holding what the method stored for that tier, absent where nothing was stored |
| Coordinator.ScramblingCoordinator.constructor | src/main/java/org/verdictdb/coordinator/ScramblingCoordinator.java:44-46 | both schemas are absent and the options are the defaults |
| Coordinator.ScramblingCoordinator.WithScrambleSchema | src/main/java/org/verdictdb/coordinator/ScramblingCoordinator.java:48-50 | the scramble schema is also the scratchpad schema; the options are the defaults |
| Coordinator.ScramblingCoordinator.WithSchemas | src/main/java/org/verdictdb/coordinator/ScramblingCoordinator.java:52-54 | both schemas are as given (absent where null); the options are the defaults |
| Coordinator.ScramblingCoordinator.WithBlockSize | src/main/java/org/verdictdb/coordinator/ScramblingCoordinator.java:56-63 | the schemas are as given; the options are the defaults with a non-null block size written over the block-size entry |
| Coordinator.ScramblingCoordinator.TargetSchema | src/main/java/org/verdictdb/coordinator/ScramblingCoordinator.java:66-71 | the two-argument scramble writes to the scramble schema when one is present, and otherwise to the original schema |
| Coordinator.ScramblingCoordinator.ChooseMethod | src/main/java/org/verdictdb/coordinator/ScramblingCoordinator.java:134-143 | the dispatch throws "Invalid scrambling method" exactly when the name matches neither "uniform" nor "FastConverge" up to case; its only other failure is the absent scratchpad schema; a fast-converge method lives in the scratchpad schema and carries the given primary column |
| Coordinator.ScramblingCoordinator.ConfigureMethod | src/main/java/org/verdictdb/coordinator/ScramblingCoordinator.java:118-143 | a configuration exists only for a name that passes the sanity check and that the dispatch builds a method for; before any plan exists the call can fail only as unsupported, as a malformed block size, at the absent scratchpad schema or as an invalid name |
| Coordinator.ScramblingCoordinator.ScrambleOutcome | src/main/java/org/verdictdb/coordinator/ScramblingCoordinator.java:113-167 | a name the sanity check rejects fails with "not supported" whatever the collaborators do; once the method is configured, the only failures are the plan's and the run's |
| Coordinator.ScramblingCoordinator.EffectiveOptions | src/main/java/org/verdictdb/coordinator/ScramblingCoordinator.java:124-130 | the keys are those of both tables; a custom key takes the custom value; every other key keeps the coordinator's value |
| Coordinator.ScramblingCoordinator.MergeOptions | src/main/java/org/verdictdb/coordinator/ScramblingCoordinator.java:123-130 | the two `put` loops produce exactly the effective options |
| Coordinator.ScramblingCoordinator.CollectDistributions | src/main/java/org/verdictdb/coordinator/ScramblingCoordinator.java:154-159 | the tier loop produces exactly the meta's distribution map |
| Coordinator.ScramblingCoordinator.ScrambleWithOptions | src/main/java/org/verdictdb/coordinator/ScramblingCoordinator.java:113-167 | the seven-argument scramble returns exactly `ScrambleOutcome` of its arguments, including every failure (unsupported name, malformed block size, absent scratchpad, invalid name, plan failure, run failure) |
| Coordinator.ScramblingCoordinator.Scramble | src/main/java/org/verdictdb/coordinator/ScramblingCoordinator.java:65-75 | the two-argument scramble writes to the scramble schema if there is one, else to the original schema; the table name is the original name followed by the suffix option; the method is uniform |
| Coordinator.ScramblingCoordinator.ScrambleInto | src/main/java/org/verdictdb/coordinator/ScramblingCoordinator.java:77-86 | the four-argument scramble uses method "uniform", no primary column, and the coordinator's own options |
| Coordinator.ScramblingCoordinator.ScrambleWithMethod | src/main/java/org/verdictdb/coordinator/ScramblingCoordinator.java:88-97 | the five-argument scramble uses no primary column and the coordinator's own options |
| Coordinator.ScramblingCoordinator.ScrambleWithPrimaryColumn | src/main/java/org/verdictdb/coordinator/ScramblingCoordinator.java:99-111 | passing a copy of the options as custom options leaves the coordinator's block and tier column names in the meta |
| Coordinator.ScramblingCoordinator.CopiedOptionsChangeNothing | src/main/java/org/verdictdb/coordinator/ScramblingCoordinator.java:104-108 | merging the coordinator's options over themselves gives them back |
| Coordinator.ScramblingCoordinator.UnsupportedMethodFailsFirst | src/main/java/org/verdictdb/coordinator/ScramblingCoordinator.java:118-121 | a name whose lower-cased form is not recognized fails with the "not supported" error whatever the plan would do, and no other path gives that error |
| Coordinator.ScramblingCoordinator.DispatchAgreesWithValidation | src/main/java/org/verdictdb/coordinator/ScramblingCoordinator.java:118-143 | a name that passes the sanity check never reaches the "invalid scrambling method" branch, so that branch is unreachable from any call |
| Coordinator.ScramblingCoordinator.DispatchWiderThanValidation | src/main/java/org/verdictdb/coordinator/ScramblingCoordinator.java:118-143 | the converse fails: "unıform" (with a dotless i) fails the sanity check, yet the dispatch would build the uniform method for it |
| Coordinator.ScramblingCoordinator.ChooseScramblingMethod | src/main/java/org/verdictdb/coordinator/ScramblingCoordinator.java:134-143 | the if-chain of the dispatch picks exactly `ChooseMethod` of the name and primary column |
| Coordinator.ScramblingCoordinator.ConfiguredBlockSize | src/main/java/org/verdictdb/coordinator/ScramblingCoordinator.java:124-133 | for a validated name, the method is built with the parse of the effective block-size text, custom or not, and the call fails as malformed exactly when that text does not parse |
| Coordinator.ScramblingCoordinator.ConfigureRejectsOnlyUnsupported | src/main/java/org/verdictdb/coordinator/ScramblingCoordinator.java:118-143 | the configuration fails with the "not supported" error exactly when the validation rejects the name |
| Coordinator.ScramblingCoordinator.DefaultUniformConfiguration | src/main/java/org/verdictdb/coordinator/ScramblingCoordinator.java:133-137 | with the default options, "uniform" in any case builds the uniform method with blocks of 1000000 rows, whether the custom options leave the block size out or are the copy of the options that the shorter overloads pass |
| Coordinator.ScramblingCoordinator.DispatchByName | src/main/java/org/verdictdb/coordinator/ScramblingCoordinator.java:134-143 | "uniform" in any case builds the uniform method; "fastconverge" in any case builds the fast-converge method in the scratchpad schema, with the primary column exactly when one is given, and fails when the scratchpad schema is absent |
| Coordinator.ScramblingCoordinator.ScrambleOutcomeShape | src/main/java/org/verdictdb/coordinator/ScramblingCoordinator.java:146-166 | a successful scramble ran the plan to completion; its meta names the requested tables, takes its column names from the effective options, takes its counts from the method after the run, and maps exactly tiers 0 to tierCount-1 to the stored distributions |
| Coordinator.ScramblingCoordinator.ConstructedBlockSizeReachesMethod | src/main/java/org/verdictdb/coordinator/ScramblingCoordinator.java:133 | when the custom options leave the block size out or repeat the coordinator's (as the copy passed by the 2-, 4-, 5- and 6-argument overloads does), the method is built with the constructor's block size (in the exact decimal reading; in Java exactly only up to 2^53 in magnitude), or 1000000 by default, and the block size never fails to parse |
| Coordinator.ScramblingCoordinator.FastConvergeNeedsScratchpad | src/main/java/org/verdictdb/coordinator/ScramblingCoordinator.java:136-141 | asking for fast-converge without a scratchpad schema fails before any plan exists, with or without a primary column |
| Coordinator.ScramblingCoordinator.CompletedOutcome | src/main/java/org/verdictdb/coordinator/ScramblingCoordinator.java:146-152 | for any primary column, once the method is configured and the run completes, the scramble succeeds and its meta takes the block and tier column names from the effective options |
| Coordinator.ScramblingCoordinator.CustomBlockColumnOverridesDefault | src/main/java/org/verdictdb/coordinator/ScramblingCoordinator.java:124-152 | with the default options, overriding only `blockColumnName` and running a uniform scramble to completion yields a meta with the custom block column and the default tier column |
| Scrambling.StoredFor | src/main/java/org/verdictdb/core/scrambling/ScramblingMethodBase.java:48-50 | a tier has a distribution exactly when it is in the map, and it is the mapped one |
| Scrambling.StoredForLaws | src/main/java/org/verdictdb/core/scrambling/ScramblingMethodBase.java:43-50 | nothing is stored at first; the last store for a tier wins; a store leaves every other tier unchanged |
| Scrambling.ScramblingMethod.constructor | src/main/java/org/verdictdb/core/scrambling/ScramblingMethodBase.java:33-37 | block size, maximum block count and relative size are recorded as given; every tier answers absent |
| Scrambling.ScramblingMethod.GetBlockSize | src/main/java/org/verdictdb/core/scrambling/ScramblingMethodBase.java:39-41 | answers the current block size |
| Scrambling.ScramblingMethod.StoreCumulativeProbabilityDistribution | src/main/java/org/verdictdb/core/scrambling/ScramblingMethodBase.java:43-45 | afterwards the tier answers the stored distribution; every other tier answers what it did before; no other field changes |
| Scrambling.ScramblingMethod.GetStoredCumulativeProbabilityDistributionForTier | src/main/java/org/verdictdb/core/scrambling/ScramblingMethodBase.java:47-50 | a distribution is returned exactly when one is stored for the tier, and it is that one |
| Querying.WithAggEntries | src/main/java/org/verdictdb/core/querying/AggExecutionNode.java:39-42 | the token maps "aggMeta" to the node's metadata and "dependentQuery" to its query; it has the parent token's keys plus those two; every other key keeps the parent value |
| Querying.AggExecutionNode.constructor | src/main/java/org/verdictdb/core/querying/AggExecutionNode.java:16-22 | the node holds the given query and namer and its own new aggregation metadata |
| Querying.AggExecutionNode.Create | src/main/java/org/verdictdb/core/querying/AggExecutionNode.java:24-30 | the new node's query is the given query, as rewritten by the subquery extraction, and the node carries the extraction's dependencies |
| Querying.AggExecutionNode.CreateQuery | src/main/java/org/verdictdb/core/querying/AggExecutionNode.java:32-35 | the answer is the inherited `createQuery`'s answer for the same tokens |
| Querying.AggExecutionNode.CreateToken | src/main/java/org/verdictdb/core/querying/AggExecutionNode.java:37-43 | the inherited token itself is returned, with its entries extended by the aggregation metadata and the current query |
| Querying.AggExecutionNode.DeepCopy | src/main/java/org/verdictdb/core/querying/AggExecutionNode.java:45-51 | the copy is a new node with this node's old query, namer and inherited fields and new metadata; this node, not the copy, receives a fresh query with the same content; with no query it fails with NullPointerException and changes nothing |
| Querying.AggExecutionNode.GetMeta | src/main/java/org/verdictdb/core/querying/AggExecutionNode.java:53-55 | answers the same metadata object that `createToken` publishes under "aggMeta" |
| SqlObject.SubqueryColumn.constructor | src/main/java/org/verdictdb/core/sqlobject/SubqueryColumn.java:14-17 | the column holds a fresh, empty select query |
| SqlObject.SubqueryColumn.Of | src/main/java/org/verdictdb/core/sqlobject/SubqueryColumn.java:19-21 | the column holds the given query |
| SqlObject.SubqueryColumn.SetSubquery | src/main/java/org/verdictdb/core/sqlobject/SubqueryColumn.java:23-25 | afterwards the column answers the given query; nothing else changes |
| SqlObject.SubqueryColumn.GetSubqueryColumn | src/main/java/org/verdictdb/core/sqlobject/SubqueryColumn.java:27-29 | a new column that answers the given query |
| SqlObject.SubqueryColumn.GetSubquery | src/main/java/org/verdictdb/core/sqlobject/SubqueryColumn.java:31-33 | answers the held query |
| SqlObject.SubqueryColumn.IsAggregateColumn | src/main/java/org/verdictdb/core/sqlobject/SubqueryColumn.java:50-53 | never an aggregate |
| SqlObject.SubqueryColumn.DeepCopy | src/main/java/org/verdictdb/core/sqlobject/SubqueryColumn.java:55-59 | the "copy" is the very same object |
| SqlObject.SubqueryColumn.Equals | src/main/java/org/verdictdb/core/sqlobject/SubqueryColumn.java:40-43 | a column equals nothing when compared with null, and always equals itself |
| SqlObject.SetThroughCopy | src/main/java/org/verdictdb/core/sqlobject/SubqueryColumn.java:55-59 | a query set through the copy is what the original answers |
| SqlObject.ColumnEqualityLaws | src/main/java/org/verdictdb/core/sqlobject/SubqueryColumn.java:40-43 | field-wise equality is reflexive and symmetric, and holds between columns holding the same query |
| Text.ToLower | src/main/java/org/verdictdb/coordinator/ScramblingCoordinator.java:119 | the text never gets shorter; without an İ it keeps its length and each character is lower-cased on its own |
| Text.EqualsIgnoreCase | src/main/java/org/verdictdb/coordinator/ScramblingCoordinator.java:135-139 | equality up to case is reflexive and holds only between texts of the same length |
| Text.SameLowerCharEqualIgnoringCase | src/main/java/org/verdictdb/coordinator/ScramblingCoordinator.java:119-139 | two characters with the same lower case pass `regionMatches`' per-character test |
| Text.LowerCasedPointwise | src/main/java/org/verdictdb/coordinator/ScramblingCoordinator.java:119 | a text whose lower case holds no combining dot has no İ, keeps its length, and lower-cases character by character |
| Text.SameLowerCaseEqualsIgnoringCase | src/main/java/org/verdictdb/coordinator/ScramblingCoordinator.java:119-139 | two texts with the same lower case (one without a combining dot) are equal up to case |
| Text.EqualIgnoringCaseYetLowerCasedApart | src/main/java/org/verdictdb/coordinator/ScramblingCoordinator.java:119-135 | the converse fails: "unıform" equals "uniform" up to case, yet it is its own lower case, which is not "uniform" |
| Text.LowerCaseOf | src/main/java/org/verdictdb/coordinator/ScramblingCoordinator.java:135-139 | a text that folds character by character onto another lower-cases to it |
| Text.ParseDoubleAsLong | src/main/java/org/verdictdb/coordinator/ScramblingCoordinator.java:133 | the text fails to parse exactly when it is not a decimal numeral; a negative numeral never gives a positive block size, and a positive one never gives a negative block size |
| Text.LongToString | src/main/java/org/verdictdb/coordinator/ScramblingCoordinator.java:61 | a non-empty text, with a leading minus exactly for negative numbers and digits otherwise |
| Text.LongToStringRoundTrip | src/main/java/org/verdictdb/coordinator/ScramblingCoordinator.java:133 | the text the constructor writes for a block size reads back as that block size |
| Text.ScaleDigitsTruncates | src/main/java/org/verdictdb/coordinator/ScramblingCoordinator.java:133 | a negative decimal exponent divides by the power of ten and rounds toward zero, as `longValue` does |
| Text.TruncatedFractionValue | src/main/java/org/verdictdb/coordinator/ScramblingCoordinator.java:133 | a number written with a decimal point reads as its whole part |
| Text.FractionIsTruncated | src/main/java/org/verdictdb/coordinator/ScramblingCoordinator.java:133 | in the exact decimal reading, digits after the decimal point are dropped, never rounded, for either sign |
| Text.DefaultBlockSizeText | src/main/java/org/verdictdb/coordinator/ScramblingCoordinator.java:34 | the default "1e6" reads as 1000000 |

## Left out

- `ScramblingPlan.create` and `ExecutablePlanRunner.runTillEnd`: building and running SQL against
  the connection. They are one function parameter, `runPlan`. It either fails at one of the two
  steps or completes with the counts and distributions the concrete method decided. Java hands the
  live `effectiveOptions` map to `ScramblingPlan.create` and reads the block and tier column names
  from it afterwards; the model reads them from the map as merged, so it assumes the plan does not
  change the options.
- Concurrency in the plan runner is not modelled.
- Scrambling.ScramblingMethod.RecordDecision stands for the effect of that run on the method
  object. It sets the counts and stores the decided distributions.
- The `UniformScramblingMethod` and `FastConvergeScramblingMethod` internals are not part of this
  model. Neither are the `maxBlockCount` and `relativeSize` they pass to the base constructor; those
  come from `Collaborators`.
- `AggMeta`, `IdCreator` and `SubqueriesToDependentNodes` are not part of this model.
- The fields inherited from `CreateTableAsSelectNode` / `ExecutableNodeBase` are one opaque value.
  `copyFields` copies it. `super.createToken` and `super.createQuery` are arguments.
- `SelectQuery` is an opaque sequence of rendered items. `selectListDeepCopy` is a fresh object with
  the same items.
- `hashCode` and `toString` (reflection, commons-lang) are left out.
- SqlObject.SubqueryColumn.Equals: compares only against columns. `equals` against an object of
  another class, which is false, is not modelled.
- Text.ToLower: models `String.toLowerCase` in a default locale other than Turkish, Azerbaijani or
  Lithuanian. It lower-cases the ASCII letters and the Kelvin sign (to k), and turns İ into i followed
  by a combining dot. Other non-ASCII letters (Ä, Σ, …) are kept as they are. No other character
  lower-cases to an ASCII letter, so the sanity check accepts exactly the names Java accepts. Under a
  Turkish or Azerbaijani default locale, `"UNIFORM".toLowerCase()` is "unıform" and Java rejects the
  name, while Coordinator.IsSupportedMethod accepts it.
- Text.EqualsIgnoreCase: `Character.toUpperCase` and `Character.toLowerCase` are modelled on the ASCII
  letters and on the four other characters whose case partner is an ASCII letter: ı, ſ, İ and the
  Kelvin sign. That makes it exact whenever one side is ASCII, as at the dispatch's literals. For two
  non-ASCII letters such as Ä and ä it answers false where Java answers true.
- Text.ParseDoubleAsLong: accepts `[sign] digits [. digits] [e|E [sign] digits]`. It computes
  exactly, truncates toward zero and saturates to the `long` range. Not covered:
  - surrounding whitespace;
  - `f`/`d` suffixes;
  - `NaN` and `Infinity`;
  - hexadecimal floating literals;
  - rounding to a 53-bit significand.

  The model agrees with Java on texts whose value a double holds exactly, such as "1e6" and every
  integer up to 2^53 in magnitude. Elsewhere Java first rounds the text to the nearest double and
  then truncates: "0.99999999999999999" gives 1 and "2.9999999999999999" gives 3 in Java, but 0 and
  2 in the model.
- Text.FractionIsTruncated: holds of the exact decimal reading. Java drops the fraction of the
  nearest double, so a fraction with more significant digits than a double holds can round up first,
  as in "0.99999999999999999" above.
- Text.LongToStringRoundTrip: holds for the exact reading above. Java reads back only block sizes
  up to 2^53 in magnitude exactly.
- Coordinator.InitialOptions: the read-back clause holds for the exact reading. In Java a block size
  above 2^53 in magnitude does not read back as itself: `9007199254740993` is written as
  "9007199254740993" and reads back as 9007199254740992.
- Coordinator.ScramblingCoordinator.ConstructedBlockSizeReachesMethod: for the same reason, a
  constructor block size above 2^53 in magnitude reaches the method rounded to the nearest double in
  Java, but exact in the model.
- A `null` method name (a `NullPointerException` at `toLowerCase`) is not modelled. Neither is a
  `null` option value (one at `Double.valueOf`): names and option values are strings. A `null`
  `customOptions` map (a `NullPointerException` at the second merge loop, after the sanity check)
  is not modelled either, and neither are `null` schema or table names (a `null` original table
  becomes "null_scrambled" in the two-argument scramble): these are strings and maps.
- Storing a `null` distribution (indistinguishable from an absent tier in Java) is not modelled;
  distributions are sequences.
- `serialVersionUID` fields and the connection's I/O are left out. `DbmsConnection` is only handed
  on.
- The test files are left out.
