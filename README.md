# openml-pimp experiment decisions and task weighting, in Dafny

This project models the decision logic of two scripts in the openml-pimp repository:

- `examples/experiments/optimizer_with_priors.py` runs a hyperparameter optimizer whose search distributions come
  from priors. The model covers these parts of it:
  - the `update_param_dist` step. It is a class `ParamDistributions` whose map the method changes in place: it pops
    `max_depth` into `base_estimator__max_depth` for AdaBoost. A loop then builds the renamed map.
  - the command-line validation of the search type and inverse holdout;
  - the choice of classifier from the flow id;
  - the precedence between the hyperband, successive-halving and random-search settings;
  - the holdout set of tasks;
  - the prefixing of fixed parameters;
  - the layout of the output directory and trace file.
- `openmlpimp/generatedata/generate.py` uploads runs of tasks that are drawn with weights. Tasks with many existing
  runs are drawn less often. The model covers the XOR validation of the task selection. It also covers
  `get_probability_fn`, given the server's run counts as an input map. It is written as a method with the source's
  two loops and is proved against a specification function. The model also covers the list that repeats each task
  as often as its weight, from which a task is drawn uniformly.

Modules:
- `Wrappers`: `Option`, `Result`, `Outcome` and the Python exceptions raised.
- `Decimal`: Python's `str(int)` and its inverse.
- `Sets`: picking a member of a non-empty set.
- `OptimizerWithPriors`
- `Generate`

Python dicts are modelled as Dafny maps. Both renaming loops are injective on keys, so the order in which entries are
visited does not change the result.

## Model

| member | source | states |
|---|---|---|
| OptimizerWithPriors.ParamDistributions.UpdateParamDist | examples/experiments/optimizer_with_priors.py:51-63 | Returns the renamed map, or `KeyError('max_depth')` for AdaBoost without `max_depth`. The caller's map changes only for AdaBoost with `max_depth`, which moves to `base_estimator__max_depth`. |
| OptimizerWithPriors.ParamDistributions.constructor | examples/experiments/optimizer_with_priors.py:51 | Holds the caller's parameter-distribution map unchanged. |
| OptimizerWithPriors.AdjustParamNames | examples/experiments/optimizer_with_priors.py:57-62 | The loop result equals the specification `Renamed`: every parameter is renamed and keeps its distribution. |
| OptimizerWithPriors.Renamed | examples/experiments/optimizer_with_priors.py:57-62 | The body is the model: every entry re-keyed by `RenameKey`, with its value unchanged. `RenamedKeys`, `RenamedValues` and `RenamedSize` state its properties. |
| OptimizerWithPriors.RenamedValues | examples/experiments/optimizer_with_priors.py:57-62 | Each parameter `k` appears under its new name with the same distribution. |
| OptimizerWithPriors.RenamedKeys | examples/experiments/optimizer_with_priors.py:57-62 | A name is in the result iff it is `imputation__strategy` for an input `strategy`, or `classifier__` + an input name other than `strategy`. |
| OptimizerWithPriors.RenamedSize | examples/experiments/optimizer_with_priors.py:57-63 | The renaming neither merges nor drops entries: the result has as many entries as the input. |
| OptimizerWithPriors.OriginalKeyOfRenameKey | examples/experiments/optimizer_with_priors.py:58-61 | The renaming of one name has an inverse, so no two names collide. |
| OptimizerWithPriors.RenameKey | examples/experiments/optimizer_with_priors.py:58-61 | The body is the model: `strategy` becomes `imputation__strategy`, and every other name gets the prefix `classifier__`. Its properties are stated by `OriginalKeyOfRenameKey` and `RenamedKeys`. |
| OptimizerWithPriors.AdjustedParamDist | examples/experiments/optimizer_with_priors.py:51-63 | The value `update_param_dist` returns. It fails exactly for AdaBoost without `max_depth`, and then with `KeyError('max_depth')`. Otherwise it is the renaming of the map, after the move for AdaBoost. |
| OptimizerWithPriors.MoveMaxDepth | examples/experiments/optimizer_with_priors.py:54-55 | The pop and assignment remove `max_depth` and put its value under `base_estimator__max_depth`. All other entries keep their values. |
| OptimizerWithPriors.AdaBoostMaxDepth | examples/experiments/optimizer_with_priors.py:54-62 | For AdaBoost the result has `classifier__base_estimator__max_depth` holding the old `max_depth` distribution, and no `classifier__max_depth`. |
| OptimizerWithPriors.AdaBoostWithoutMaxDepth | examples/experiments/optimizer_with_priors.py:54-55 | AdaBoost without a `max_depth` entry raises `KeyError('max_depth')`. |
| OptimizerWithPriors.AdjustedParamDistSize | examples/experiments/optimizer_with_priors.py:54-63 | The result has as many entries as the input. The one exception is AdaBoost with `base_estimator__max_depth` already present, where the move overwrites it and there is one fewer. |
| OptimizerWithPriors.ValidateSearchArgs | examples/experiments/optimizer_with_priors.py:44-46 | Raises a ValueError exactly for search type uniform together with inverse holdout. |
| OptimizerWithPriors.PriorGridFor | examples/experiments/optimizer_with_priors.py:163-209 | kde, empirical and uniform each select their own prior grid. Multivariate, whose branch is commented out, raises ValueError. |
| OptimizerWithPriors.RunnableSearchArgs | examples/experiments/optimizer_with_priors.py:44-209 | It combines the validation at :44-46 with the dispatch at :163-209, where multivariate reaches `raise ValueError()` at :208-209. A search type and holdout flag pass validation and reach a grid iff the type is kde or empirical, or the type is uniform without inverse holdout. |
| OptimizerWithPriors.ClassifierForFlow | examples/experiments/optimizer_with_priors.py:70-77 | Succeeds iff the flow id is 6969, 6970 or 7707, always with one of the declared classifiers. Any other id raises ValueError. |
| OptimizerWithPriors.ClassifierForFlowInjective | examples/experiments/optimizer_with_priors.py:70-75 | Distinct supported flows give distinct classifiers. |
| OptimizerWithPriors.OnlyFlow6970IsAdaBoost | examples/experiments/optimizer_with_priors.py:72-73 | The AdaBoost renaming of `update_param_dist` applies exactly for flow 6970. |
| OptimizerWithPriors.ChooseSetting | examples/experiments/optimizer_with_priors.py:114-121 | `num_brackets` wins over `num_steps`, which wins over `num_iterations`. The chosen setting carries that argument's value. ValueError is raised iff all three are absent. |
| OptimizerWithPriors.SettingName | examples/experiments/optimizer_with_priors.py:114-119 | The body is the model: `hyperband_`, `successive_halving_` or `random_search_` followed by the `%d` text of the setting's value. `SettingNameRoundTrip` and `SettingNameInjective` state its properties. |
| OptimizerWithPriors.SettingNameRoundTrip | examples/experiments/optimizer_with_priors.py:114-119 | The setting's directory name (`hyperband_%d`, ...) can be parsed back to the setting. |
| OptimizerWithPriors.SettingNameInjective | examples/experiments/optimizer_with_priors.py:114-119 | Distinct settings write to distinct directory names. |
| OptimizerWithPriors.Holdout | examples/experiments/optimizer_with_priors.py:158-161 | Without inverse holdout the held-out set is the current task. With it, the set is every other listed task, and the current task is not in it. |
| OptimizerWithPriors.PriorTasks | examples/experiments/optimizer_with_priors.py:158-161 | Of the listed tasks, the priors may use every task except the current one. With inverse holdout they use only the current task. |
| OptimizerWithPriors.PrefixFixedParameters | examples/experiments/optimizer_with_priors.py:214-218 | No fixed parameters give an empty map. Otherwise each fixed parameter `p` appears as `estimator__classifier__` + `p` with its value, nothing else appears, and the count is unchanged. |
| OptimizerWithPriors.SearchTypeName | examples/experiments/optimizer_with_priors.py:29 | The `--search_type` text is one of the four choices argparse accepts. |
| OptimizerWithPriors.RunDirPrefix | examples/experiments/optimizer_with_priors.py:139 | The body is the model: the part of `output_dir` shared by every task and seed, with `output_save_folder_suffix[1:]`. `TracePathIdentifiesRun` states what the layout guarantees. |
| OptimizerWithPriors.RunLeaf | examples/experiments/optimizer_with_priors.py:139 | The body is the model: the task id, `/`, then the seed, as `str` writes them. `TracePathIdentifiesRun` states what the layout guarantees. |
| OptimizerWithPriors.OutputDir | examples/experiments/optimizer_with_priors.py:139 | The body is the model: `output_dir` of one (task, seed) run, the shared part followed by the task and seed. `TracePathIdentifiesRun` states what the layout guarantees. |
| OptimizerWithPriors.TracePath | examples/experiments/optimizer_with_priors.py:145 | The body is the model: `expected_path`, the run's directory followed by `/trace.arff`. `TracePathIdentifiesRun` states what the layout guarantees. |
| OptimizerWithPriors.TracePathIdentifiesRun | examples/experiments/optimizer_with_priors.py:139-145 | With the other arguments fixed, two (task, seed) pairs with the same `trace.arff` path are the same pair. The skip check at :146 therefore never confuses two (task, seed) runs of one configuration. |
| Decimal.IntToStringRoundTrip | examples/experiments/optimizer_with_priors.py:115-119 | `%d` / `str` of an int can be read back as that int. |
| Decimal.IntToString | examples/experiments/optimizer_with_priors.py:139 | `str` of an int is non-empty. It starts with `-` exactly for a negative int, and every other character is a digit, so it contains no `/`. |
| Generate.ValidateTaskSelection | openmlpimp/generatedata/generate.py:30-33 | Passes iff exactly one of task ids and study id is given. Each failing case raises its ValueError. |
| Generate.FilledCounts | openmlpimp/generatedata/generate.py:46-49 | The counted tasks are the fetched ones plus the study's. Fetched counts are kept and added tasks count 0. |
| Generate.AddMissingTasks | openmlpimp/generatedata/generate.py:46-49 | The loop over the study's tasks yields exactly `FilledCounts`. |
| Generate.MaxOf | openmlpimp/generatedata/generate.py:52 | Python `max` of a non-empty collection returns a member that no element exceeds. |
| Generate.MaxValue | openmlpimp/generatedata/generate.py:51-52 | `max_value` is 0 without tasks and at least 1 otherwise. It bounds every count, and when above 1 it is some task's count. |
| Generate.InvertedCounts | openmlpimp/generatedata/generate.py:54-57 | Every counted task gets a weight, and no other task does. `WeightsBounded`, `UnrunTaskWeight`, `MostRunTaskWeight`, `WeightsReverseOrder` and `NoRunsUniform` state the weights' properties. |
| Generate.Invert | openmlpimp/generatedata/generate.py:54-57 | The loop yields exactly the inverted counts: `max_value - count` for every counted task. |
| Generate.WeightsBounded | openmlpimp/generatedata/generate.py:51-57 | Every weight lies between 0 and `max_value`. |
| Generate.UnrunTaskWeight | openmlpimp/generatedata/generate.py:51-57 | A task without runs gets the largest weight, which is at least 1. |
| Generate.MostRunTaskWeight | openmlpimp/generatedata/generate.py:51-57 | A task with the largest positive count gets weight 0. |
| Generate.WeightsReverseOrder | openmlpimp/generatedata/generate.py:51-57 | More runs never mean a larger weight. |
| Generate.NoRunsUniform | openmlpimp/generatedata/generate.py:51-57 | Without any runs, every task gets weight 1. |
| Generate.SortedItems | openmlpimp/generatedata/generate.py:60 | `sorted(d.items())` lists exactly the dict's keys, each with its value, in strictly ascending order. |
| Generate.ProbabilityFn | openmlpimp/generatedata/generate.py:43-60 | The body is the model: the filled counts, inverted, then sorted. `ProbabilityFnShape` and `ProbabilityFnPoolCount` state its properties, and `GetProbabilityFn` is proved equal to it. |
| Generate.GetProbabilityFn | openmlpimp/generatedata/generate.py:43-60 | The method with the source's loops returns exactly the specification `ProbabilityFn`. |
| Generate.ProbabilityFnShape | openmlpimp/generatedata/generate.py:43-60 | The result covers the fetched and study tasks in ascending id order. Each task's weight is `max_value` minus its count, or minus 0 when it was not fetched. |
| Generate.Repeat | openmlpimp/generatedata/generate.py:106 | `range(cnt)` repeats a task `cnt` times, or not at all when `cnt <= 0`. |
| Generate.SamplePool | openmlpimp/generatedata/generate.py:106 | The expanded list's length is the sum of the positive weights, and it holds only listed tasks. |
| Generate.SamplePoolCount | openmlpimp/generatedata/generate.py:106 | Each task occurs in the expanded list exactly as often as its weight, or 0 times when the weight is not positive. |
| Generate.SortedItemsDistinct | openmlpimp/generatedata/generate.py:60 | The sorted items never repeat a task id. |
| Generate.ProbabilityFnPoolCount | openmlpimp/generatedata/generate.py:99-106 | In the list built from the generator's own weights, each task occurs exactly as often as its weight, or not at all when the weight is 0. |
| Generate.ZeroWeightNeverSampled | openmlpimp/generatedata/generate.py:106 | A task of weight 0 is never drawn. |
| Generate.SamplePoolEmpty | openmlpimp/generatedata/generate.py:106 | The expanded list is empty iff no weight is positive. |
| Generate.EqualCountsEmptyPool | openmlpimp/generatedata/generate.py:51-57 | As written: when every task has the same positive count, the list handed to `random.choice` is empty. |
| Generate.SingleCountedTaskEmptyPool | openmlpimp/generatedata/generate.py:43-60 | As written: counts `{31: 3}` with study `[31]` give an empty list to draw from. |
| Generate.CorrectedSamplePool | openmlpimp/generatedata/generate.py:106 | The body is the model: the corrected list for :106, built from the filled counts with the uniform fallback. `CorrectedPoolNonEmpty` and `CorrectedAgreesWhenSamplable` state its properties. |
| Generate.CorrectedWeights | openmlpimp/generatedata/generate.py:51-57 | The corrected weighting covers the same tasks as the counts. |
| Generate.CorrectedWeightsPositive | openmlpimp/generatedata/generate.py:51-57 | With the fallback, some task has a positive weight whenever there is a task. |
| Generate.CorrectedPoolNonEmpty | openmlpimp/generatedata/generate.py:43-60 | With the fallback, a task can be drawn as soon as any task is fetched or listed. |
| Generate.CorrectedAgreesWhenSamplable | openmlpimp/generatedata/generate.py:43-60 | Wherever the original list is non-empty, the corrected list is identical to it. |
| Generate.CorrectedWeightsReverseOrder | openmlpimp/generatedata/generate.py:51-57 | The fallback keeps the rule that more runs never mean a larger weight. |

## Left out

- Server calls are not modelled: study and task downloads, `flow_exists`, `task_counts`, running and publishing runs. The run counts are an input map and the study's task ids an input sequence.
- Optimizers (HyperBand, successive halving, random search), pipelines, configuration spaces and the construction of priors (`get_kde_paramgrid` and the like) are not modelled. A prior grid is a tag, and distributions are an opaque type parameter.
- `fixed_parameters_to_suffix` is not part of this model. The cache and output suffixes are opaque strings. `TracePathIdentifiesRun` needs nothing about them, because they are the same for every task and seed.
- Directory creation, the `trace.arff` existence check and the inter-process lock are left out because they are filesystem effects. Only the path they use is modelled.
- The per-task/per-seed run loop is left out, including the `n_executions` break, which only ends the seed loop. So is the generator's loop over `n_executions`. Both are sequences of I/O steps.
- `random.shuffle` and `random.choice` are left out. The list a task is drawn from is modelled, not the draw.
- Argument parsing is replaced by typed parameters. A search type is a datatype, and an absent argument is `None`. Some `isinstance` branches are unreachable for the declared argument types: the `int` test at optimizer_with_priors.py:83-84, the `raise` at :87-88 and the `int` test at :94-95. The branch at :85-86 is taken whenever `--openml_taskid` is given, since `nargs="+"` always yields a list. That list is one of the inputs `Holdout` receives as `allTaskIds`.
- Printing and timestamps are left out.
- The generator's `except` clauses at generate.py:139-146 are left out. They print the traceback and go on with the next execution.
- `check_classifier_equals` is left out because it is never called.
- The helpers in `openmlpimp/utils` are not part of this model.
- Python dict insertion order is not modelled. Maps replace dicts. `get_probability_fn` sorts its result, which the model keeps.
- OptimizerWithPriors.TracePathIdentifiesRun: the output path at optimizer_with_priors.py:139 does not contain `--eta` (passed to the optimizer at :228 and :237) or `--study_id` (which the prior is built from at :165 and :177). Two runs that differ only in these write the same `trace.arff`, and the second is skipped at :146-148. The lemma distinguishes only (task, seed) under one configuration.
- OptimizerWithPriors.PriorTasks: the model does not relate `all_task_ids` to the study the prior is built from. With `--openml_taskid`, the prior is still requested for `--study_id` (optimizer_with_priors.py:164-166, :176-178), so inverse holdout does not limit the prior to the current task. The lemma speaks only of the listed tasks.
- Generate.GetProbabilityFn: fetched tasks that are not in the study keep their weight and can be drawn, as in the source. The model does not restrict the draw to the study.

## Findings

| source | as written | input that shows it | evidently intended | confidence | as-written member | corrected member |
|---|---|---|---|---|---|---|
| openmlpimp/generatedata/generate.py:51-57, :106 | Each weight is `max_value - count`. When every task has the same positive count, all weights are 0, and `random.choice` gets an empty list and raises. The broad `except` swallows it, so every execution fails. | server counts `{31: 3}`, study tasks `[31]` | `max(1, ...)` shows that the authors meant equal counts to give uniform weights, as with no runs at all. So a task should always be drawable. | medium; not executed | Generate.EqualCountsEmptyPool | Generate.CorrectedPoolNonEmpty |
