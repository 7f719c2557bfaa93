/**
  The decision logic of the prior-based optimizer experiment script: which classifier a flow id
  stands for, how hyperparameter names are rewritten into scikit-learn pipeline parameter names,
  which search setting the command line selects, which tasks are held out from the prior, how fixed
  parameters are prefixed, which argument combinations are refused, and where a run's output goes.
*/
module OptimizerWithPriors {
  import opened Wrappers
  import Decimal
  import opened Sets

  // ---------------------------------------------------------------------------------------------
  // Command-line validation

  /** The `--search_type` choices argparse accepts. */
  datatype SearchType = Kde | Uniform | Empirical | Multivariate

  /** The `--search_type` text, as it appears in the output directory. */
  function SearchTypeName(t: SearchType): (r: string)
    ensures r in ["kde", "uniform", "empirical", "multivariate"]
  {
    match t
    case Kde => "kde"
    case Uniform => "uniform"
    case Empirical => "empirical"
    case Multivariate => "multivariate"
  }

  /** The check `parse_args` makes after parsing: a uniform search has no prior, so no inverse holdout. */
  function ValidateSearchArgs(searchType: SearchType, inverseHoldout: bool): (r: Outcome)
    ensures r.Fail? <==> searchType == Uniform && inverseHoldout
    ensures r.Fail? ==> r.error.ValueError?
  {
    if searchType == Uniform && inverseHoldout then
      Fail(ValueError("Inverse holdout set not applicable to search type uniform"))
    else
      Pass
  }

  /** The prior-construction routine a search type is dispatched to. */
  datatype PriorGrid = KdeGrid | EmpiricalGrid | UniformGrid

  /** The dispatch on the search type inside the run loop; `multivariate` passes argparse but is refused here. */
  function PriorGridFor(searchType: SearchType): (r: Result<PriorGrid>)
    ensures r.Failure? <==> searchType == Multivariate
    ensures r.Success? ==> SearchTypeName(searchType) == GridName(r.value)
  {
    match searchType
    case Kde => Success(KdeGrid)
    case Empirical => Success(EmpiricalGrid)
    case Uniform => Success(UniformGrid)
    case Multivariate => Failure(ValueError(""))
  }

  function GridName(g: PriorGrid): string {
    match g
    case KdeGrid => "kde"
    case EmpiricalGrid => "empirical"
    case UniformGrid => "uniform"
  }

  /** The search configurations that get past both the argument check and the dispatch. */
  lemma RunnableSearchArgs(searchType: SearchType, inverseHoldout: bool)
    ensures (ValidateSearchArgs(searchType, inverseHoldout).Pass? && PriorGridFor(searchType).Success?)
        <==> (searchType == Kde || searchType == Empirical || (searchType == Uniform && !inverseHoldout))
  {
  }

  // ---------------------------------------------------------------------------------------------
  // Flow id to classifier

  /** The classifier list `parse_args` declares (unused in this script). */
  const AllClassifiers: seq<string> := ["adaboost", "decision_tree", "libsvm_svc", "random_forest", "sgd"]

  /** The three flows the script knows; any other flow id raises ValueError. */
  function ClassifierForFlow(flowId: int): (r: Result<string>)
    ensures r.Success? <==> flowId in {6969, 6970, 7707}
    ensures r.Success? ==> r.value in AllClassifiers
    ensures r.Failure? ==> r.error.ValueError?
  {
    if flowId == 6969 then Success("random_forest")
    else if flowId == 6970 then Success("adaboost")
    else if flowId == 7707 then Success("libsvm_svc")
    else Failure(ValueError(""))
  }

  /** Different known flows select different classifiers. */
  lemma ClassifierForFlowInjective(f1: int, f2: int)
    requires ClassifierForFlow(f1).Success? && ClassifierForFlow(f2).Success?
    requires ClassifierForFlow(f1) == ClassifierForFlow(f2)
    ensures f1 == f2
  {
  }

  /** Flow 6970 is the only flow whose classifier triggers the `max_depth` move in UpdateParamDist. */
  lemma OnlyFlow6970IsAdaBoost(flowId: int)
    ensures ClassifierForFlow(flowId) == Success("adaboost") <==> flowId == 6970
  {
  }

  // ---------------------------------------------------------------------------------------------
  // Hyperparameter names to pipeline parameter names

  /** `strategy` belongs to the imputation step; every other hyperparameter to the classifier step. */
  function RenameKey(name: string): string {
    if name == "strategy" then "imputation__strategy" else "classifier__" + name
  }

  /** Recovers the hyperparameter name from a pipeline parameter name RenameKey produced. */
  function OriginalKey(j: string): string {
    if j == "imputation__strategy" then "strategy" else if |j| >= 12 then j[12..] else j
  }

  lemma OriginalKeyOfRenameKey(k: string)
    ensures OriginalKey(RenameKey(k)) == k
  {
    if k != "strategy" {
      assert RenameKey(k)[0] == 'c';
      assert RenameKey(k)[12..] == k;
    }
  }

  lemma OriginalKeyOfRenameKeyAll()
    ensures forall k {:trigger RenameKey(k)} :: OriginalKey(RenameKey(k)) == k
  {
    forall k ensures OriginalKey(RenameKey(k)) == k {
      OriginalKeyOfRenameKey(k);
    }
  }

  /** Every entry of `m` re-keyed by RenameKey, with its value unchanged. */
  function Renamed<V>(m: map<string, V>): map<string, V> {
    OriginalKeyOfRenameKeyAll();
    map j | j in (set k | k in m :: RenameKey(k)) :: m[OriginalKey(j)]
  }

  /** The re-keyed map holds every renamed key with its original value. */
  lemma RenamedValues<V>(m: map<string, V>, k: string)
    requires k in m
    ensures RenameKey(k) in Renamed(m) && Renamed(m)[RenameKey(k)] == m[k]
  {
    OriginalKeyOfRenameKey(k);
  }

  /** A name absent from `m` is absent, renamed, from the re-keyed map. */
  lemma RenamedMissing<V>(m: map<string, V>, k: string)
    requires k !in m
    ensures RenameKey(k) !in Renamed(m)
  {
    OriginalKeyOfRenameKeyAll();
  }

  /** The keys of the re-keyed map are exactly `imputation__strategy` (for `strategy`) and `classifier__` + k (for every other k). */
  lemma RenamedKeys<V>(m: map<string, V>, j: string)
    ensures j in Renamed(m) <==>
              (j == "imputation__strategy" && "strategy" in m)
              || (|j| >= 12 && j[..12] == "classifier__" && j[12..] in m && j[12..] != "strategy")
  {
    if j in Renamed(m) {
      var k :| k in m && RenameKey(k) == j;
      if k != "strategy" {
        assert j[..12] == "classifier__" && j[12..] == k;
      }
    }
    if j == "imputation__strategy" && "strategy" in m {
      RenamedValues(m, "strategy");
    }
    if |j| >= 12 && j[..12] == "classifier__" && j[12..] in m && j[12..] != "strategy" {
      assert j == j[..12] + j[12..];
      RenamedValues(m, j[12..]);
    }
  }

  /** Distinct names are renamed to as many distinct names. */
  lemma RenamedNamesSize(s: set<string>)
    ensures |set x | x in s :: RenameKey(x)| == |s|
    decreases s
  {
    if s != {} {
      var a :| a in s;
      var rest := s - {a};
      RenamedNamesSize(rest);
      assert (set x | x in s :: RenameKey(x)) == (set x | x in rest :: RenameKey(x)) + {RenameKey(a)};
      OriginalKeyOfRenameKeyAll();
      assert RenameKey(a) !in (set x | x in rest :: RenameKey(x));
    }
  }

  /** Renaming loses no entry: the output has as many entries as the input. */
  lemma RenamedSize<V>(m: map<string, V>)
    ensures |Renamed(m)| == |m|
  {
    RenamedNamesSize(m.Keys);
    assert Renamed(m).Keys == set x | x in m.Keys :: RenameKey(x);
  }

  /** The `adaboost` fix-up: `max_depth` is popped and stored again as `base_estimator__max_depth`. */
  function MoveMaxDepth<V>(m: map<string, V>): (r: map<string, V>)
    requires "max_depth" in m
    ensures r.Keys == m.Keys - {"max_depth"} + {"base_estimator__max_depth"}
    ensures r["base_estimator__max_depth"] == m["max_depth"]
    ensures forall k :: k in r && k != "base_estimator__max_depth" ==> r[k] == m[k]
  {
    (m - {"max_depth"})["base_estimator__max_depth" := m["max_depth"]]
  }

  /** What `update_param_dist` returns for the given input map. */
  function AdjustedParamDist<V>(classifier: string, m: map<string, V>): (r: Result<map<string, V>>)
    ensures r.Failure? <==> classifier == "adaboost" && "max_depth" !in m
    ensures r.Failure? ==> r.error == KeyError("max_depth")
  {
    if classifier == "adaboost" then
      if "max_depth" in m then Success(Renamed(MoveMaxDepth(m))) else Failure(KeyError("max_depth"))
    else
      Success(Renamed(m))
  }

  /** For adaboost the depth limit reaches the base estimator, and never the classifier itself. */
  lemma AdaBoostMaxDepth<V>(m: map<string, V>)
    requires "max_depth" in m
    ensures AdjustedParamDist("adaboost", m).Success?
    ensures "classifier__" + "base_estimator__max_depth" in AdjustedParamDist("adaboost", m).value
    ensures AdjustedParamDist("adaboost", m).value["classifier__" + "base_estimator__max_depth"] == m["max_depth"]
    ensures "classifier__" + "max_depth" !in AdjustedParamDist("adaboost", m).value
  {
    var moved := MoveMaxDepth(m);
    RenamedValues(moved, "base_estimator__max_depth");
    RenamedMissing(moved, "max_depth");
  }

  /** For adaboost without a `max_depth` entry, `pop` raises KeyError. */
  lemma AdaBoostWithoutMaxDepth<V>(m: map<string, V>)
    requires "max_depth" !in m
    ensures AdjustedParamDist("adaboost", m) == Failure(KeyError("max_depth"))
  {
  }

  /**
    The output has one entry per entry of the (moved) input: as many as the input for any other
    classifier, and for adaboost one fewer exactly when the move overwrote an existing
    `base_estimator__max_depth`.
  */
  lemma AdjustedParamDistSize<V>(classifier: string, m: map<string, V>)
    requires AdjustedParamDist(classifier, m).Success?
    ensures |AdjustedParamDist(classifier, m).value|
         == |m| - (if classifier == "adaboost" && "base_estimator__max_depth" in m then 1 else 0)
  {
    if classifier == "adaboost" {
      var moved := MoveMaxDepth(m);
      RenamedSize(moved);
      var removed := m - {"max_depth"};
      assert |removed| == |m| - 1 by {
        assert removed.Keys == m.Keys - {"max_depth"};
      }
      if "base_estimator__max_depth" in m {
        assert moved.Keys == removed.Keys;
      } else {
        assert moved.Keys == removed.Keys + {"base_estimator__max_depth"};
      }
    } else {
      RenamedSize(m);
    }
  }

  /** The loop of `update_param_dist` that fills `param_dist_adjusted` entry by entry. */
  method AdjustParamNames<V>(m: map<string, V>) returns (adjusted: map<string, V>)
    ensures adjusted == Renamed(m)
  {
    OriginalKeyOfRenameKeyAll();
    adjusted := map[];
    var todo := m.Keys;
    while todo != {}
      invariant todo <= m.Keys
      invariant forall k :: k in m && k !in todo ==> RenameKey(k) in adjusted
      invariant forall j :: j in adjusted ==>
                  OriginalKey(j) in m && OriginalKey(j) !in todo && j == RenameKey(OriginalKey(j))
                  && adjusted[j] == m[OriginalKey(j)]
      decreases todo
    {
      // the witness that lets the `:|` below find a name in the non-empty `todo`
      ghost var someName := Member(todo);
      var paramName :| paramName in todo;
      var hyperparameter := m[paramName];
      adjusted := adjusted[RenameKey(paramName) := hyperparameter];
      todo := todo - {paramName};
    }
    assert adjusted.Keys == Renamed(m).Keys;
  }

  /** The hyperparameter distributions `update_param_dist` receives and mutates. */
  class ParamDistributions<V> {
    var dist: map<string, V>

    constructor (dist: map<string, V>)
      ensures this.dist == dist
    {
      this.dist := dist;
    }

    /**
      `update_param_dist`: for adaboost, move `max_depth` in place (raising KeyError if it is
      missing, before anything changes); then return the re-keyed copy.
    */
    method UpdateParamDist(classifier: string) returns (r: Result<map<string, V>>)
      modifies this
      ensures r == AdjustedParamDist(classifier, old(dist))
      ensures dist == if classifier == "adaboost" && "max_depth" in old(dist) then MoveMaxDepth(old(dist)) else old(dist)
    {
      if classifier == "adaboost" {
        if "max_depth" !in dist {
          return Failure(KeyError("max_depth"));
        }
        var maxDepth := dist["max_depth"];
        dist := dist - {"max_depth"};
        dist := dist["base_estimator__max_depth" := maxDepth];
      }
      var adjusted := AdjustParamNames(dist);
      r := Success(adjusted);
    }
  }

  // ---------------------------------------------------------------------------------------------
  // Search setting

  /** The optimizer a run uses and its budget parameter. */
  datatype Setting =
    | HyperBand(numBrackets: int)
    | SuccessiveHalving(numSteps: int)
    | RandomSearch(numIterations: int)

  /** Brackets take precedence over steps, steps over iterations; with none of them set, ValueError. */
  function ChooseSetting(numBrackets: Option<int>, numSteps: Option<int>, numIterations: Option<int>): (r: Result<Setting>)
    ensures r.Failure? <==> numBrackets.None? && numSteps.None? && numIterations.None?
    ensures r.Success? ==> (r.value.HyperBand? <==> numBrackets.Some?)
    ensures r.Success? && r.value.HyperBand? ==> numBrackets == Some(r.value.numBrackets)
    ensures r.Success? && r.value.SuccessiveHalving? ==> numBrackets.None? && numSteps == Some(r.value.numSteps)
    ensures r.Success? && r.value.RandomSearch? ==>
              numBrackets.None? && numSteps.None? && numIterations == Some(r.value.numIterations)
  {
    if numBrackets.Some? then Success(HyperBand(numBrackets.value))
    else if numSteps.Some? then Success(SuccessiveHalving(numSteps.value))
    else if numIterations.Some? then Success(RandomSearch(numIterations.value))
    else Failure(ValueError(""))
  }

  /** The setting's directory name: `hyperband_<b>`, `successive_halving_<s>` or `random_search_<n>`. */
  function SettingName(s: Setting): string {
    match s
    case HyperBand(b) => "hyperband_" + Decimal.IntToString(b)
    case SuccessiveHalving(n) => "successive_halving_" + Decimal.IntToString(n)
    case RandomSearch(n) => "random_search_" + Decimal.IntToString(n)
  }

  /** Reads a setting back from its directory name. */
  function ParseSettingName(name: string): Option<Setting> {
    if |name| >= 10 && name[..10] == "hyperband_" then
      match Decimal.ParseInt(name[10..])
      case Some(b) => Some(HyperBand(b))
      case None => None
    else if |name| >= 19 && name[..19] == "successive_halving_" then
      match Decimal.ParseInt(name[19..])
      case Some(n) => Some(SuccessiveHalving(n))
      case None => None
    else if |name| >= 14 && name[..14] == "random_search_" then
      match Decimal.ParseInt(name[14..])
      case Some(n) => Some(RandomSearch(n))
      case None => None
    else None
  }

  /** The directory name determines the optimizer and its budget. */
  lemma SettingNameRoundTrip(s: Setting)
    ensures ParseSettingName(SettingName(s)) == Some(s)
  {
    var name := SettingName(s);
    match s
    case HyperBand(b) =>
      assert name[..10] == "hyperband_" && name[10..] == Decimal.IntToString(b);
      Decimal.IntToStringRoundTrip(b);
    case SuccessiveHalving(n) =>
      assert name[..10] != "hyperband_" by { assert name[0] == 's'; }
      assert name[..19] == "successive_halving_" && name[19..] == Decimal.IntToString(n);
      Decimal.IntToStringRoundTrip(n);
    case RandomSearch(n) =>
      assert name[..10] != "hyperband_" by { assert name[0] == 'r'; }
      assert |name| < 19 || name[..19] != "successive_halving_" by { assert name[0] == 'r'; }
      assert name[..14] == "random_search_" && name[14..] == Decimal.IntToString(n);
      Decimal.IntToStringRoundTrip(n);
  }

  /** Different settings never share an output directory name. */
  lemma SettingNameInjective(s1: Setting, s2: Setting)
    requires SettingName(s1) == SettingName(s2)
    ensures s1 == s2
  {
    SettingNameRoundTrip(s1);
    SettingNameRoundTrip(s2);
  }

  // ---------------------------------------------------------------------------------------------
  // Holdout

  /** The tasks excluded from building the prior for `taskId`. */
  function Holdout(allTaskIds: seq<int>, taskId: int, inverseHoldout: bool): (r: set<int>)
    ensures !inverseHoldout ==> r == {taskId}
    ensures inverseHoldout ==> taskId !in r
    ensures inverseHoldout ==> forall t :: t in r <==> t in allTaskIds && t != taskId
  {
    if inverseHoldout then (set t | t in allTaskIds) - {taskId} else {taskId}
  }

  /**
    The listed tasks left for the prior: every other listed task normally, only the task itself under
    inverse holdout.
  */
  lemma PriorTasks(allTaskIds: seq<int>, taskId: int, inverseHoldout: bool)
    requires taskId in allTaskIds
    ensures (set t | t in allTaskIds) - Holdout(allTaskIds, taskId, inverseHoldout)
         == if inverseHoldout then {taskId} else (set t | t in allTaskIds) - {taskId}
  {
  }

  // ---------------------------------------------------------------------------------------------
  // Fixed parameters

  const FixedParamPrefix: string := "estimator__classifier__"

  /** The loop that addresses each fixed parameter at the classifier step of the optimizer's pipeline. */
  method PrefixFixedParameters<V>(fixedParameters: Option<map<string, V>>) returns (r: map<string, V>)
    ensures fixedParameters.None? ==> r == map[]
    ensures fixedParameters.Some? ==> forall p :: p in fixedParameters.value ==>
              FixedParamPrefix + p in r && r[FixedParamPrefix + p] == fixedParameters.value[p]
    ensures forall q :: q in r ==>
              fixedParameters.Some? && |q| >= 23 && q[..23] == FixedParamPrefix && q[23..] in fixedParameters.value
    ensures fixedParameters.Some? ==> |r| == |fixedParameters.value|
  {
    r := map[];
    if fixedParameters.Some? {
      var fixed := fixedParameters.value;
      var todo := fixed.Keys;
      while todo != {}
        invariant todo <= fixed.Keys
        invariant forall p :: p in fixed && p !in todo ==> FixedParamPrefix + p in r && r[FixedParamPrefix + p] == fixed[p]
        invariant forall q :: q in r ==> |q| >= 23 && q[..23] == FixedParamPrefix && q[23..] in fixed && q[23..] !in todo
        invariant |r| == |fixed| - |todo|
        decreases todo
      {
        // the witness that lets the `:|` below find a name in the non-empty `todo`
        ghost var someName := Member(todo);
        var paramName :| paramName in todo;
        var value := fixed[paramName];
        var key := FixedParamPrefix + paramName;
        assert key[..23] == FixedParamPrefix && key[23..] == paramName;
        r := r[key := value];
        todo := todo - {paramName};
      }
    }
  }

  // ---------------------------------------------------------------------------------------------
  // Output location of one run

  /** Python's `s[1:]`, which is empty for the empty string. */
  function DropFirst(s: string): string {
    if |s| == 0 then "" else s[1..]
  }

  /** The part of a run's directory shared by all tasks and seeds; the two suffixes come from a helper outside this model. */
  function RunDirPrefix(outputDir: string, setting: Setting, flowId: int, cacheSuffix: string,
                        searchType: SearchType, outputSuffix: string): string
  {
    outputDir + "/" + SettingName(setting) + "/" + Decimal.IntToString(flowId) + cacheSuffix + "/"
      + SearchTypeName(searchType) + "__" + DropFirst(outputSuffix) + "/"
  }

  /** The directory of one (task, seed) run. */
  function OutputDir(outputDir: string, setting: Setting, flowId: int, cacheSuffix: string,
                     searchType: SearchType, outputSuffix: string, taskId: int, seed: int): string
  {
    RunDirPrefix(outputDir, setting, flowId, cacheSuffix, searchType, outputSuffix) + RunLeaf(taskId, seed)
  }

  /** The last two levels of a run's directory: the task id, then the seed. */
  function RunLeaf(taskId: int, seed: int): string {
    Decimal.IntToString(taskId) + "/" + Decimal.IntToString(seed)
  }

  /** The trace file whose existence marks a run as finished. */
  function TracePath(dir: string): string {
    dir + "/trace.arff"
  }

  /** The prefix of `s` before the first `c`. */
  function UpTo(s: string, c: char): string {
    if s == [] || s[0] == c then [] else [s[0]] + UpTo(s[1..], c)
  }

  lemma {:induction false} UpToSeparator(a: string, b: string, c: char)
    requires c !in a
    ensures UpTo(a + [c] + b, c) == a
  {
    if a != [] {
      assert (a + [c] + b)[1..] == a[1..] + [c] + b;
      UpToSeparator(a[1..], b, c);
    }
  }

  lemma SplitAtSlash(a1: string, b1: string, a2: string, b2: string)
    requires '/' !in a1 && '/' !in a2
    requires a1 + "/" + b1 == a2 + "/" + b2
    ensures a1 == a2 && b1 == b2
  {
    UpToSeparator(a1, b1, '/');
    UpToSeparator(a2, b2, '/');
    var s := a1 + "/" + b1;
    assert b1 == s[|a1| + 1..];
    assert b2 == (a2 + "/" + b2)[|a2| + 1..];
  }

  /** Removing a common prefix and a common suffix leaves equal middles. */
  lemma StripCommon(prefix: string, t1: string, t2: string, suffix: string)
    requires prefix + t1 + suffix == prefix + t2 + suffix
    ensures t1 == t2
  {
    var s1 := prefix + t1 + suffix;
    assert t1 == s1[|prefix|..|s1| - |suffix|];
  }

  /** Below a common directory, `<a>/<b>/trace.arff` determines `a` and `b` when `a` holds no `/`. */
  lemma RunSuffixParts(prefix: string, a1: string, b1: string, a2: string, b2: string)
    requires '/' !in a1 && '/' !in a2
    requires prefix + (a1 + "/" + b1) + "/trace.arff" == prefix + (a2 + "/" + b2) + "/trace.arff"
    ensures a1 == a2 && b1 == b2
  {
    StripCommon(prefix, a1 + "/" + b1, a2 + "/" + b2, "/trace.arff");
    SplitAtSlash(a1, b1, a2, b2);
  }

  /**
    Runs of different tasks or different seeds under the same setting, flow and search type never
    share a trace file, so the finished-run check is per (task, seed).
  */
  lemma TracePathIdentifiesRun(outputDir: string, setting: Setting, flowId: int, cacheSuffix: string,
                               searchType: SearchType, outputSuffix: string,
                               task1: int, seed1: int, task2: int, seed2: int)
    requires TracePath(OutputDir(outputDir, setting, flowId, cacheSuffix, searchType, outputSuffix, task1, seed1))
          == TracePath(OutputDir(outputDir, setting, flowId, cacheSuffix, searchType, outputSuffix, task2, seed2))
    ensures task1 == task2 && seed1 == seed2
  {
    var prefix := RunDirPrefix(outputDir, setting, flowId, cacheSuffix, searchType, outputSuffix);
    RunSuffixParts(prefix, Decimal.IntToString(task1), Decimal.IntToString(seed1),
                   Decimal.IntToString(task2), Decimal.IntToString(seed2));
    Decimal.IntToStringInjective(task1, task2);
    Decimal.IntToStringInjective(seed1, seed2);
  }
}
