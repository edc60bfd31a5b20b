/**
  * ScramblingCoordinator: validates a scramble request, merges its options over the
  * coordinator's own, picks and configures the scrambling method, hands the plan to the
  * runner, and assembles the ScrambleMeta from what the method recorded.
  */
module Coordinator {
  import opened Values
  import opened Text
  import opened Scrambling

  const TierColumnKey := "tierColumnName"
  const BlockColumnKey := "blockColumnName"
  const SuffixKey := "scrambleTableSuffix"
  const BlockSizeKey := "scrambleTableBlockSize"

  /** The recognized scrambling methods, lower-cased. */
  const ScramblingMethods: set<string> := {"uniform", "fastconverge"}

  /** The option table every coordinator starts from. */
  const DefaultOptions: map<string, string> := map[
    TierColumnKey := "verdictdbtier",
    BlockColumnKey := "verdictdbblock",
    SuffixKey := "_scrambled",
    BlockSizeKey := "1e6"]

  /** The connection the plan runs against; it is only handed on. */
  class DbmsConnection {
  }

  /** How a scramble call fails. */
  datatype ScrambleError =
    | UnsupportedMethod(methodName: string)  // VerdictDBValueException from the sanity check
    | MalformedNumber(text: string)          // NumberFormatException from Double.valueOf
    | AbsentScratchpad                       // IllegalStateException from Optional.get
    | InvalidMethod(methodName: string)      // VerdictDBValueException from the dispatch
    | PlanFailure(reason: string)            // thrown while ScramblingPlan.create builds the plan
    | ExecutionFailure(reason: string)       // thrown while ExecutablePlanRunner.runTillEnd runs it

  /**
    * What a scramble call takes from code that is not part of this model: the `maxBlockCount`
    * and `relativeSize` the concrete method classes hand to their base, and how building and
    * running the plan for a request ends.
    */
  datatype Collaborators = Collaborators(maxBlockCount: int32, relativeSize: real, runPlan: PlanRequest -> PlanRun)

  /** The option table the constructors leave: the defaults, with a given block size written over its entry. */
  function InitialOptions(blockSize: Option<long>): (r: map<string, string>)
    ensures r.Keys == DefaultOptions.Keys
    ensures forall k :: k in r && k != BlockSizeKey ==> r[k] == DefaultOptions[k]
    ensures blockSize.Some? ==> r[BlockSizeKey] == LongToString(blockSize.value)
    ensures ParseDoubleAsLong(r[BlockSizeKey]) == Some(if blockSize.Some? then blockSize.value else 1000000)
  {
    if blockSize.Some? then
      LongToStringRoundTrip(blockSize.value);
      DefaultOptions[BlockSizeKey := LongToString(blockSize.value)]
    else
      DefaultBlockSizeText();
      DefaultOptions
  }

  /** The literals the dispatch compares against fold to the recognized names. */
  lemma MethodLiteralsFold()
    ensures ToLower("uniform") == "uniform" && ToLower("FastConverge") == "fastconverge"
    ensures NoCombiningDot("uniform") && NoCombiningDot("fastconverge")
  {
    UniformFolds();
    FastConvergeFolds();
  }

  lemma UniformFolds()
    ensures ToLower("uniform") == "uniform" && NoCombiningDot("uniform")
  {
    assert FoldsTo("uniform", "uniform");
    LowerCaseOf("uniform", "uniform");
  }

  lemma FastConvergeFolds()
    ensures ToLower("FastConverge") == "fastconverge" && NoCombiningDot("fastconverge")
  {
    FastConvergeFoldsPointwise();
    LowerCaseOf("FastConverge", "fastconverge");
  }

  lemma FastConvergeFoldsPointwise()
    ensures FoldsTo("FastConverge", "fastconverge") && NoCombiningDot("fastconverge")
  {
  }

  /** A name whose lower case is a recognized method passes the dispatch's test for that method. */
  lemma DispatchTests(methodName: string)
    ensures ToLower(methodName) == "uniform" ==> EqualsIgnoreCase(methodName, "uniform")
    ensures ToLower(methodName) == "fastconverge" ==> EqualsIgnoreCase(methodName, "FastConverge")
  {
    MethodLiteralsFold();
    if ToLower(methodName) == "uniform" {
      SameLowerCaseEqualsIgnoringCase(methodName, "uniform", "uniform");
    }
    if ToLower(methodName) == "fastconverge" {
      SameLowerCaseEqualsIgnoringCase(methodName, "FastConverge", "fastconverge");
    }
  }

  /** The sanity check: the lower-cased name is one of the recognized methods. */
  predicate IsSupportedMethod(methodName: string)
    ensures IsSupportedMethod(methodName) ==>
              EqualsIgnoreCase(methodName, "uniform") || EqualsIgnoreCase(methodName, "FastConverge")
  {
    DispatchTests(methodName);
    ToLower(methodName) in ScramblingMethods
  }

  /** The meta's distribution map: tiers 0 to tierCount - 1, each with what is stored for it. */
  function TierDistributions(stored: map<int32, Distribution>, tierCount: int32): (r: map<int32, Option<Distribution>>)
    ensures forall t: int32 :: t in r <==> 0 <= t < tierCount
    ensures forall t :: t in r ==> r[t] == StoredFor(stored, t)
  {
    map t: int32 | 0 <= t < tierCount :: StoredFor(stored, t)
  }

  class ScramblingCoordinator {
    const conn: DbmsConnection
    const options: map<string, string>
    const scrambleSchema: Option<string>
    const scratchpadSchema: Option<string>

    /** Every option a scramble reads is in the table. */
    predicate Valid()
    {
      DefaultOptions.Keys <= options.Keys
    }

    constructor (conn: DbmsConnection)
      ensures Valid()
      ensures this.conn == conn && options == DefaultOptions
      ensures scrambleSchema.None? && scratchpadSchema.None?
    {
      this.conn := conn;
      scratchpadSchema := None;
      scrambleSchema := None;
      options := DefaultOptions;
    }

    /** The scramble schema doubles as the scratchpad schema. */
    constructor WithScrambleSchema(conn: DbmsConnection, scrambleSchema: Option<string>)
      ensures Valid()
      ensures this.conn == conn && options == DefaultOptions
      ensures this.scrambleSchema == scrambleSchema && scratchpadSchema == scrambleSchema
    {
      this.conn := conn;
      this.scratchpadSchema := scrambleSchema;
      this.scrambleSchema := scrambleSchema;
      options := DefaultOptions;
    }

    constructor WithSchemas(conn: DbmsConnection, scrambleSchema: Option<string>, scratchpadSchema: Option<string>)
      ensures Valid()
      ensures this.conn == conn && options == DefaultOptions
      ensures this.scrambleSchema == scrambleSchema && this.scratchpadSchema == scratchpadSchema
    {
      this.conn := conn;
      this.scratchpadSchema := scratchpadSchema;
      this.scrambleSchema := scrambleSchema;
      options := DefaultOptions;
    }

    /** A given block size replaces only the block-size entry of the defaults. */
    constructor WithBlockSize(conn: DbmsConnection, scrambleSchema: Option<string>, scratchpadSchema: Option<string>,
                              blockSize: Option<long>)
      ensures Valid()
      ensures this.conn == conn && options == InitialOptions(blockSize)
      ensures this.scrambleSchema == scrambleSchema && this.scratchpadSchema == scratchpadSchema
    {
      this.conn := conn;
      this.scratchpadSchema := scratchpadSchema;
      this.scrambleSchema := scrambleSchema;
      var table := DefaultOptions;
      if blockSize.Some? {
        table := table[BlockSizeKey := LongToString(blockSize.value)];
      }
      options := table;
    }

    /** The custom options laid over this coordinator's options, key by key. */
    function EffectiveOptions(customOptions: map<string, string>): (r: map<string, string>)
      ensures r.Keys == options.Keys + customOptions.Keys
      ensures forall k :: k in customOptions ==> r[k] == customOptions[k]
      ensures forall k :: k in options && k !in customOptions ==> r[k] == options[k]
    {
      options + customOptions
    }

    /** Where the two-argument scramble writes: the scramble schema if there is one. */
    function TargetSchema(originalSchema: string): (r: string)
      ensures scrambleSchema == Some(r) || (scrambleSchema.None? && r == originalSchema)
    {
      if scrambleSchema.Some? then scrambleSchema.value else originalSchema
    }

    /** The case-insensitive dispatch to a concrete method. */
    function ChooseMethod(methodName: string, primaryColumn: Option<string>): (r: Result<MethodKind, ScrambleError>)
      ensures r == Failure(InvalidMethod(methodName)) <==>
                !EqualsIgnoreCase(methodName, "uniform") && !EqualsIgnoreCase(methodName, "FastConverge")
      ensures r.Failure? ==> r.error == AbsentScratchpad || r.error == InvalidMethod(methodName)
      ensures r == Failure(AbsentScratchpad) ==> scratchpadSchema.None?
      ensures r.Success? && r.value.FastConverge? ==>
                Some(r.value.scratchpadSchema) == scratchpadSchema && r.value.primaryColumn == primaryColumn
    {
      if EqualsIgnoreCase(methodName, "uniform") then Success(Uniform)
      else if EqualsIgnoreCase(methodName, "FastConverge") && primaryColumn.None? then
        if scratchpadSchema.None? then Failure(AbsentScratchpad)
        else Success(FastConverge(scratchpadSchema.value, None))
      else if EqualsIgnoreCase(methodName, "FastConverge") && primaryColumn.Some? then
        if scratchpadSchema.None? then Failure(AbsentScratchpad)
        else Success(FastConverge(scratchpadSchema.value, primaryColumn))
      else Failure(InvalidMethod(methodName))
    }

    /** Everything a scramble decides before any plan exists: validation, options, block size, method. */
    function ConfigureMethod(methodName: string, primaryColumn: Option<string>, customOptions: map<string, string>)
      : (r: Result<MethodConfig, ScrambleError>)
      requires Valid()
      ensures r.Success? ==> IsSupportedMethod(methodName)
      ensures r.Success? ==> ChooseMethod(methodName, primaryColumn) == Success(r.value.kind)
      ensures r.Failure? ==> r.error.UnsupportedMethod? || r.error.MalformedNumber? || r.error == AbsentScratchpad
                             || r.error == InvalidMethod(methodName)
    {
      if !IsSupportedMethod(methodName) then Failure(UnsupportedMethod(methodName))
      else
        var text := EffectiveOptions(customOptions)[BlockSizeKey];
        match ParseDoubleAsLong(text)
        case None => Failure(MalformedNumber(text))
        case Some(blockSize) =>
          match ChooseMethod(methodName, primaryColumn)
          case Failure(e) => Failure(e)
          case Success(kind) => Success(MethodConfig(kind, blockSize))
    }

    /** The result of the seven-argument scramble, as a function of its arguments and collaborators. */
    function ScrambleOutcome(originalSchema: string, originalTable: string, newSchema: string, newTable: string,
                             methodName: string, primaryColumn: Option<string>, customOptions: map<string, string>,
                             env: Collaborators): (r: Result<ScrambleMeta, ScrambleError>)
      requires Valid()
      ensures !IsSupportedMethod(methodName) ==> r == Failure(UnsupportedMethod(methodName))
      ensures r.Failure? && ConfigureMethod(methodName, primaryColumn, customOptions).Success? ==>
                r.error.PlanFailure? || r.error.ExecutionFailure?
    {
      match ConfigureMethod(methodName, primaryColumn, customOptions)
      case Failure(e) => Failure(e)
      case Success(config) =>
        var effective := EffectiveOptions(customOptions);
        match env.runPlan(PlanRequest(newSchema, newTable, originalSchema, originalTable, config, effective))
        case PlanCreationFails(reason) => Failure(PlanFailure(reason))
        case RunFails(reason) => Failure(ExecutionFailure(reason))
        case RunCompletes(d) =>
          Success(ScrambleMeta(newSchema, newTable, originalSchema, originalTable,
                               effective[BlockColumnKey], d.blockCount, effective[TierColumnKey], d.tierCount,
                               TierDistributions(d.distributions, d.tierCount)))
    }

    /** Scrambles into the scramble schema (or the original one), naming the table with the suffix option. */
    method Scramble(originalSchema: string, originalTable: string, env: Collaborators)
      returns (r: Result<ScrambleMeta, ScrambleError>)
      requires Valid()
      ensures r == ScrambleOutcome(originalSchema, originalTable, TargetSchema(originalSchema),
                                   originalTable + options[SuffixKey], "uniform", None, options, env)
      ensures r.Success? ==> r.value.newSchema == TargetSchema(originalSchema)
      ensures r.Success? ==> r.value.newTable == originalTable + options[SuffixKey]
    {
      var newSchema;
      if scrambleSchema.Some? {
        newSchema := scrambleSchema.value;
      } else {
        newSchema := originalSchema;
      }
      var newTable := originalTable + options[SuffixKey];
      r := ScrambleInto(originalSchema, originalTable, newSchema, newTable, env);
      ScrambleOutcomeShape(originalSchema, originalTable, newSchema, newTable, "uniform", None, options, env);
    }

    /** The uniform method, no primary column, the coordinator's own options. */
    method ScrambleInto(originalSchema: string, originalTable: string, newSchema: string, newTable: string,
                        env: Collaborators)
      returns (r: Result<ScrambleMeta, ScrambleError>)
      requires Valid()
      ensures r == ScrambleOutcome(originalSchema, originalTable, newSchema, newTable, "uniform", None, options, env)
    {
      var methodName := "uniform";
      var primaryColumn := None;
      r := ScrambleWithPrimaryColumn(originalSchema, originalTable, newSchema, newTable, methodName, primaryColumn, env);
    }

    /** The named method, no primary column, the coordinator's own options. */
    method ScrambleWithMethod(originalSchema: string, originalTable: string, newSchema: string, newTable: string,
                              methodName: string, env: Collaborators)
      returns (r: Result<ScrambleMeta, ScrambleError>)
      requires Valid()
      ensures r == ScrambleOutcome(originalSchema, originalTable, newSchema, newTable, methodName, None, options, env)
    {
      var primaryColumn := None;
      r := ScrambleWithPrimaryColumn(originalSchema, originalTable, newSchema, newTable, methodName, primaryColumn, env);
    }

    /** Passes a copy of the coordinator's options as the custom options, so nothing is overridden. */
    method ScrambleWithPrimaryColumn(originalSchema: string, originalTable: string, newSchema: string, newTable: string,
                                     methodName: string, primaryColumn: Option<string>, env: Collaborators)
      returns (r: Result<ScrambleMeta, ScrambleError>)
      requires Valid()
      ensures r == ScrambleOutcome(originalSchema, originalTable, newSchema, newTable, methodName, primaryColumn, options, env)
      ensures r.Success? ==> r.value.blockColumn == options[BlockColumnKey] && r.value.tierColumn == options[TierColumnKey]
    {
      var customOptions := options;
      r := ScrambleWithOptions(originalSchema, originalTable, newSchema, newTable, methodName, primaryColumn,
                               customOptions, env);
      CopiedOptionsChangeNothing();
      ScrambleOutcomeShape(originalSchema, originalTable, newSchema, newTable, methodName, primaryColumn, options, env);
    }

    /** Copies the coordinator's options, then writes each custom option over its entry. */
    method MergeOptions(customOptions: map<string, string>) returns (effectiveOptions: map<string, string>)
      ensures effectiveOptions == EffectiveOptions(customOptions)
    {
      effectiveOptions := map[];
      var pending := options.Keys;
      while pending != {}
        invariant pending <= options.Keys
        invariant effectiveOptions.Keys == options.Keys - pending
        invariant forall k :: k in effectiveOptions ==> effectiveOptions[k] == options[k]
        decreases pending
      {
        var k :| k in pending;
        effectiveOptions := effectiveOptions[k := options[k]];
        pending := pending - {k};
      }
      pending := customOptions.Keys;
      while pending != {}
        invariant pending <= customOptions.Keys
        invariant effectiveOptions.Keys == options.Keys + (customOptions.Keys - pending)
        invariant forall k :: k in effectiveOptions ==>
          effectiveOptions[k] == if k in customOptions && k !in pending then customOptions[k] else options[k]
        decreases pending
      {
        var k :| k in pending;
        effectiveOptions := effectiveOptions[k := customOptions[k]];
        pending := pending - {k};
      }
    }

    /** Reads the method's stored distribution for each tier from 0 to tierCount - 1. */
    static method CollectDistributions(scramblingMethod: ScramblingMethod, tierCount: int32)
      returns (cumulativeDistribution: map<int32, Option<Distribution>>)
      ensures cumulativeDistribution == TierDistributions(scramblingMethod.storedProbDist, tierCount)
    {
      cumulativeDistribution := map[];
      var i: int32 := 0;
      while i < tierCount
        invariant 0 <= i && (i <= tierCount || i == 0)
        invariant forall t: int32 :: t in cumulativeDistribution <==> 0 <= t < i
        invariant forall t :: t in cumulativeDistribution ==>
          cumulativeDistribution[t] == StoredFor(scramblingMethod.storedProbDist, t)
      {
        var dist := scramblingMethod.GetStoredCumulativeProbabilityDistributionForTier(i);
        cumulativeDistribution := cumulativeDistribution[i := dist];
        i := i + 1;
      }
      var expected := TierDistributions(scramblingMethod.storedProbDist, tierCount);
      forall t: int32
        ensures t in cumulativeDistribution <==> t in expected
      {
      }
      assert cumulativeDistribution.Keys == expected.Keys;
    }

    /**
      * The case-insensitive dispatch, in the order the branches are tried. It is a method of its
      * own, proved equal to ChooseMethod, to keep the proof of the scramble within resource limits.
      */
    method ChooseScramblingMethod(methodName: string, primaryColumn: Option<string>)
      returns (r: Result<MethodKind, ScrambleError>)
      ensures r == ChooseMethod(methodName, primaryColumn)
    {
      if EqualsIgnoreCase(methodName, "uniform") {
        r := Success(Uniform);
      } else if EqualsIgnoreCase(methodName, "FastConverge") && primaryColumn.None? {
        if scratchpadSchema.None? {
          return Failure(AbsentScratchpad);
        }
        r := Success(FastConverge(scratchpadSchema.value, None));
      } else if EqualsIgnoreCase(methodName, "FastConverge") && primaryColumn.Some? {
        if scratchpadSchema.None? {
          return Failure(AbsentScratchpad);
        }
        r := Success(FastConverge(scratchpadSchema.value, primaryColumn));
      } else {
        r := Failure(InvalidMethod(methodName));
      }
    }

    method ScrambleWithOptions(originalSchema: string, originalTable: string, newSchema: string, newTable: string,
                               methodName: string, primaryColumn: Option<string>, customOptions: map<string, string>,
                               env: Collaborators)
      returns (r: Result<ScrambleMeta, ScrambleError>)
      requires Valid()
      ensures r == ScrambleOutcome(originalSchema, originalTable, newSchema, newTable, methodName, primaryColumn,
                                   customOptions, env)
    {
      // sanity check
      if ToLower(methodName) !in ScramblingMethods {
        return Failure(UnsupportedMethod(methodName));
      }

      // overwrite options with custom options
      var effectiveOptions := MergeOptions(customOptions);

      // determine scrambling method
      var blockSizeText := effectiveOptions[BlockSizeKey];
      var parsed := ParseDoubleAsLong(blockSizeText);
      if parsed.None? {
        return Failure(MalformedNumber(blockSizeText));
      }
      var blockSize := parsed.value;
      var chosen := ChooseScramblingMethod(methodName, primaryColumn);
      if chosen.Failure? {
        return Failure(chosen.error);
      }
      var kind := chosen.value;
      var scramblingMethod := new ScramblingMethod(kind, blockSize, env.maxBlockCount, env.relativeSize);

      // perform scrambling
      var request := PlanRequest(newSchema, newTable, originalSchema, originalTable,
                                 MethodConfig(kind, blockSize), effectiveOptions);
      var run := env.runPlan(request);
      if run.PlanCreationFails? {
        return Failure(PlanFailure(run.reason));
      } else if run.RunFails? {
        return Failure(ExecutionFailure(run.reason));
      }
      scramblingMethod.RecordDecision(run.decision);
      assert scramblingMethod.storedProbDist == run.decision.distributions;

      // compose scramble meta
      var blockColumn := effectiveOptions[BlockColumnKey];
      var blockCount := scramblingMethod.blockCount;
      var tierColumn := effectiveOptions[TierColumnKey];
      var tierCount := scramblingMethod.tierCount;

      var cumulativeDistribution := CollectDistributions(scramblingMethod, tierCount);

      r := Success(ScrambleMeta(newSchema, newTable, originalSchema, originalTable,
                                blockColumn, blockCount, tierColumn, tierCount, cumulativeDistribution));
    }

    // ---------------------------------------------------------------------------------------
    // Properties of ScrambleOutcome, ConfigureMethod and ChooseMethod
    // ---------------------------------------------------------------------------------------

    /** Passing a copy of the coordinator's own options as custom options changes nothing. */
    lemma CopiedOptionsChangeNothing()
      ensures EffectiveOptions(options) == options
    {
    }

    /**
      * An unsupported name fails the call with UnsupportedMethod whatever the collaborators
      * would do, so no plan is built or run; no other path fails that way.
      */
    lemma UnsupportedMethodFailsFirst(originalSchema: string, originalTable: string, newSchema: string, newTable: string,
                                      methodName: string, primaryColumn: Option<string>,
                                      customOptions: map<string, string>, env: Collaborators)
      requires Valid()
      ensures !IsSupportedMethod(methodName) <==>
        ScrambleOutcome(originalSchema, originalTable, newSchema, newTable, methodName, primaryColumn, customOptions, env)
          == Failure(UnsupportedMethod(methodName))
    {
      ConfigureRejectsOnlyUnsupported(methodName, primaryColumn, customOptions);
    }

    /**
      * For a validated name, the block size the method is built with is the parse of the
      * effective block-size text, and the call fails as malformed exactly when that text does
      * not parse.
      */
    lemma ConfiguredBlockSize(methodName: string, primaryColumn: Option<string>, customOptions: map<string, string>)
      requires Valid() && IsSupportedMethod(methodName)
      ensures var text := EffectiveOptions(customOptions)[BlockSizeKey];
        var r := ConfigureMethod(methodName, primaryColumn, customOptions);
        && (r == Failure(MalformedNumber(text)) <==> ParseDoubleAsLong(text).None?)
        && (r.Success? ==> r.value.blockSize == ParseDoubleAsLong(text).value)
    {
    }

    /** Only the validation produces the "not supported" error. */
    lemma ConfigureRejectsOnlyUnsupported(methodName: string, primaryColumn: Option<string>,
                                          customOptions: map<string, string>)
      requires Valid()
      ensures ConfigureMethod(methodName, primaryColumn, customOptions) == Failure(UnsupportedMethod(methodName))
              <==> !IsSupportedMethod(methodName)
    {
      var chosen := ChooseMethod(methodName, primaryColumn);
      assert chosen.Failure? ==> chosen.error == AbsentScratchpad || chosen.error == InvalidMethod(methodName);
    }

    /**
      * Validation (on the lower-cased name) and dispatch (with equalsIgnoreCase) agree in one
      * direction: a name that passes validation never reaches the "invalid method" branch.
      */
    lemma DispatchAgreesWithValidation(methodName: string, primaryColumn: Option<string>)
      ensures IsSupportedMethod(methodName) ==> ChooseMethod(methodName, primaryColumn) != Failure(InvalidMethod(methodName))
    {
      DispatchTests(methodName);
    }

    /**
      * The other direction fails: "unıform" (with a dotless i) does not pass validation, yet the
      * dispatch would build the uniform method for it.
      */
    lemma DispatchWiderThanValidation(primaryColumn: Option<string>)
      ensures !IsSupportedMethod(DotlessUniform)
      ensures ChooseMethod(DotlessUniform, primaryColumn) == Success(Uniform)
    {
      EqualIgnoringCaseYetLowerCasedApart();
    }

    /**
      * "uniform" in any case builds the uniform method; "fastconverge" in any case builds the
      * fast-converge method in the scratchpad schema, with the primary column exactly when one is
      * given, and fails at the absent scratchpad schema otherwise.
      */
    lemma DispatchByName(methodName: string, primaryColumn: Option<string>)
      ensures ToLower(methodName) == "uniform" ==> ChooseMethod(methodName, primaryColumn) == Success(Uniform)
      ensures ToLower(methodName) == "fastconverge" ==>
        ChooseMethod(methodName, primaryColumn) ==
          if scratchpadSchema.None? then Failure(AbsentScratchpad)
          else Success(FastConverge(scratchpadSchema.value, primaryColumn))
    {
      DispatchTests(methodName);
    }

    /**
      * A successful scramble describes the requested tables, takes its column names from the
      * effective options and its counts from the completed run, and maps exactly the tiers
      * 0 to tierCount - 1 to what the method stored for them.
      */
    lemma ScrambleOutcomeShape(originalSchema: string, originalTable: string, newSchema: string, newTable: string,
                               methodName: string, primaryColumn: Option<string>, customOptions: map<string, string>,
                               env: Collaborators)
      requires Valid()
      ensures var r := ScrambleOutcome(originalSchema, originalTable, newSchema, newTable, methodName, primaryColumn,
                                       customOptions, env);
        r.Success? ==>
          var config := ConfigureMethod(methodName, primaryColumn, customOptions);
          var effective := EffectiveOptions(customOptions);
          && config.Success?
          && env.runPlan(PlanRequest(newSchema, newTable, originalSchema, originalTable, config.value, effective)).RunCompletes?
          && var d := env.runPlan(PlanRequest(newSchema, newTable, originalSchema, originalTable, config.value, effective)).decision;
          && r.value.newSchema == newSchema && r.value.newTable == newTable
          && r.value.originalSchema == originalSchema && r.value.originalTable == originalTable
          && r.value.blockColumn == effective[BlockColumnKey] && r.value.tierColumn == effective[TierColumnKey]
          && r.value.blockCount == d.blockCount && r.value.tierCount == d.tierCount
          && (forall t: int32 :: t in r.value.cumulativeDistributions <==> 0 <= t < d.tierCount)
          && forall t :: t in r.value.cumulativeDistributions ==>
               r.value.cumulativeDistributions[t] == StoredFor(d.distributions, t)
    {
    }

    /**
      * The block size a coordinator was built with (one million by default) is the block size of
      * the method the plan receives, unless the custom options name another.
      */
    lemma ConstructedBlockSizeReachesMethod(blockSize: Option<long>, methodName: string, primaryColumn: Option<string>,
                                            customOptions: map<string, string>)
      requires options == InitialOptions(blockSize)
      requires BlockSizeKey !in customOptions || customOptions[BlockSizeKey] == options[BlockSizeKey]
      ensures Valid()
      ensures IsSupportedMethod(methodName) && ChooseMethod(methodName, primaryColumn).Success? ==>
        ConfigureMethod(methodName, primaryColumn, customOptions) ==
          Success(MethodConfig(ChooseMethod(methodName, primaryColumn).value,
                               if blockSize.Some? then blockSize.value else 1000000))
    {
    }

    /**
      * Asking for "FastConverge" of a coordinator without a scratchpad schema fails before any
      * plan exists, whatever the primary column.
      */
    lemma FastConvergeNeedsScratchpad(methodName: string, primaryColumn: Option<string>,
                                      customOptions: map<string, string>)
      requires Valid() && scratchpadSchema.None?
      requires ToLower(methodName) == "fastconverge"
      requires ParseDoubleAsLong(EffectiveOptions(customOptions)[BlockSizeKey]).Some?
      ensures ConfigureMethod(methodName, primaryColumn, customOptions) == Failure(AbsentScratchpad)
    {
      DispatchByName(methodName, primaryColumn);
    }

    /**
      * A coordinator with the default options builds the uniform method with blocks of one
      * million rows for "uniform" in any case, unless the custom options set the block size.
      */
    lemma DefaultUniformConfiguration(methodName: string, customOptions: map<string, string>)
      requires options == DefaultOptions
      requires ToLower(methodName) == "uniform"
      requires BlockSizeKey !in customOptions || customOptions[BlockSizeKey] == options[BlockSizeKey]
      ensures Valid()
      ensures ConfigureMethod(methodName, None, customOptions) == Success(MethodConfig(Uniform, 1000000))
    {
      DispatchByName(methodName, None);
      ConstructedBlockSizeReachesMethod(None, methodName, None, customOptions);
    }

    /**
      * Overriding the block column alone: the meta carries the custom block column and the
      * default tier column.
      */
    lemma CustomBlockColumnOverridesDefault(originalSchema: string, originalTable: string, newSchema: string,
                                            newTable: string, methodName: string, blockColumn: string,
                                            env: Collaborators)
      requires options == DefaultOptions
      requires ToLower(methodName) == "uniform"
      requires forall request :: env.runPlan(request).RunCompletes?
      ensures Valid()
      ensures var r := ScrambleOutcome(originalSchema, originalTable, newSchema, newTable, methodName, None,
                                       map[BlockColumnKey := blockColumn], env);
        && r.Success?
        && r.value.blockColumn == blockColumn
        && r.value.tierColumn == "verdictdbtier"
    {
      var custom := map[BlockColumnKey := blockColumn];
      assert BlockSizeKey !in custom;
      DefaultUniformConfiguration(methodName, custom);
      assert EffectiveOptions(custom)[TierColumnKey] == "verdictdbtier" by {
        assert TierColumnKey !in custom;
      }
      CompletedOutcome(originalSchema, originalTable, newSchema, newTable, methodName, None, custom,
                       MethodConfig(Uniform, 1000000), env);
    }

    /** Once the configuration succeeds and the run completes, the meta takes the effective column names. */
    lemma CompletedOutcome(originalSchema: string, originalTable: string, newSchema: string, newTable: string,
                           methodName: string, primaryColumn: Option<string>, customOptions: map<string, string>,
                           config: MethodConfig, env: Collaborators)
      requires Valid()
      requires ConfigureMethod(methodName, primaryColumn, customOptions) == Success(config)
      requires env.runPlan(PlanRequest(newSchema, newTable, originalSchema, originalTable, config,
                                       EffectiveOptions(customOptions))).RunCompletes?
      ensures var r := ScrambleOutcome(originalSchema, originalTable, newSchema, newTable, methodName, primaryColumn,
                                       customOptions, env);
        && r.Success?
        && r.value.blockColumn == EffectiveOptions(customOptions)[BlockColumnKey]
        && r.value.tierColumn == EffectiveOptions(customOptions)[TierColumnKey]
    {
    }
  }
}
