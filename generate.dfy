/**
  The task-weighting logic of the run generator: tasks that already have many runs of the flow are
  sampled less often. Counts per task come from the server; every task of the study that has no run
  yet counts 0; each task's weight is the largest count (at least 1) minus its own count; the
  weights are listed in ascending task-id order and expanded into a list that repeats each task as
  often as its weight, from which a task is drawn uniformly.
*/
module Generate {
  import opened Wrappers
  import opened Sets

  // ---------------------------------------------------------------------------------------------
  // Command-line validation

  /** Tasks are given either as explicit ids or as a study, never both and never neither. */
  function ValidateTaskSelection(openmlTaskIds: Option<seq<int>>, studyId: Option<int>): (r: Outcome)
    ensures r.Pass? <==> (openmlTaskIds.Some? != studyId.Some?)
    ensures r.Fail? ==> r.error.ValueError?
  {
    if openmlTaskIds.Some? && studyId.Some? then
      Fail(ValueError("can only set openml_taskid XOR openml_tag"))
    else if openmlTaskIds.None? && studyId.None? then
      Fail(ValueError("set either openml_taskid or openml_tag"))
    else
      Pass
  }

  // ---------------------------------------------------------------------------------------------
  // Specification of the weighting

  /** The counts after every study task without a run has been added with count 0. */
  function FilledCounts(fetched: map<int, nat>, allTaskIds: seq<int>): (r: map<int, nat>)
    ensures r.Keys == fetched.Keys + (set t | t in allTaskIds)
    ensures forall t :: t in fetched ==> r[t] == fetched[t]
    ensures forall t :: t in r && t !in fetched ==> r[t] == 0
  {
    map t | t in fetched.Keys + (set t | t in allTaskIds) :: if t in fetched then fetched[t] else 0
  }

  lemma {:induction false} MaxExists(s: set<int>)
    requires s != {}
    ensures exists r :: r in s && forall x :: x in s ==> x <= r
    decreases s
  {
    var a := Member(s);
    var r := a;
    if s != {a} {
      var rest := s - {a};
      MaxExists(rest);
      var m :| m in rest && forall x :: x in rest ==> x <= m;
      r := if a <= m then m else a;
    }
    forall x | x in s ensures x <= r {
      if x != a {
        assert x in s - {a};
      }
    }
    assert r in s;
  }

  /** Python's `max` over a non-empty collection. */
  function MaxOf(s: set<int>): (r: int)
    requires s != {}
    ensures r in s && forall x :: x in s ==> x <= r
  {
    MaxExists(s);
    var r :| r in s && forall x :: x in s ==> x <= r; r
  }

  /** `task_counts.values()`. */
  function CountValues(counts: map<int, nat>): set<int> {
    set t | t in counts :: counts[t]
  }

  lemma CountValuesOf(counts: map<int, nat>)
    requires |counts| > 0
    ensures CountValues(counts) != {}
    ensures forall t :: t in counts ==> counts[t] in CountValues(counts)
  {
    var t := Member(counts.Keys);
    assert counts[t] in CountValues(counts);
  }

  /** `max_value`: 0 without tasks, otherwise the largest count but at least 1. */
  function MaxValue(counts: map<int, nat>): (r: nat)
    ensures |counts| == 0 ==> r == 0
    ensures |counts| > 0 ==> 1 <= r
    ensures forall t :: t in counts ==> counts[t] <= r
    ensures r > 1 ==> exists t :: t in counts && counts[t] == r
  {
    if |counts| > 0 then
      CountValuesOf(counts);
      var m := MaxOf(CountValues(counts));
      if m < 1 then 1 else m
    else
      0
  }

  /** Each task's weight: how far its count lies below `max_value`. */
  function InvertedCounts(counts: map<int, nat>): (r: map<int, int>)
    ensures r.Keys == counts.Keys
  {
    map t | t in counts :: MaxValue(counts) - counts[t]
  }

  /** No task gets a negative weight, and none more than `max_value`. */
  lemma WeightsBounded(counts: map<int, nat>, t: int)
    requires t in counts
    ensures 0 <= InvertedCounts(counts)[t] <= MaxValue(counts)
  {
  }

  /** A task without runs gets the largest weight, which is at least 1. */
  lemma UnrunTaskWeight(counts: map<int, nat>, t: int)
    requires t in counts && counts[t] == 0
    ensures InvertedCounts(counts)[t] == MaxValue(counts) >= 1
    ensures forall u :: u in counts ==> InvertedCounts(counts)[u] <= InvertedCounts(counts)[t]
  {
  }

  /** A task with the largest count, when that count is positive, gets weight 0. */
  lemma MostRunTaskWeight(counts: map<int, nat>, t: int)
    requires t in counts && counts[t] >= 1
    requires forall u :: u in counts ==> counts[u] <= counts[t]
    ensures InvertedCounts(counts)[t] == 0
  {
  }

  /** The weighting reverses the order of the counts. */
  lemma WeightsReverseOrder(counts: map<int, nat>, a: int, b: int)
    requires a in counts && b in counts && counts[a] <= counts[b]
    ensures InvertedCounts(counts)[a] >= InvertedCounts(counts)[b]
  {
  }

  /** Without any runs yet, every task gets weight 1: sampling is uniform. */
  lemma NoRunsUniform(counts: map<int, nat>)
    requires forall t :: t in counts ==> counts[t] == 0
    ensures forall t :: t in counts ==> InvertedCounts(counts)[t] == 1
  {
    if |counts| > 0 {
      assert MaxValue(counts) == 1;
    }
  }

  /** The keys of a list of (task, weight) pairs. */
  function ItemKeys(items: seq<(int, int)>): set<int> {
    set i | 0 <= i < |items| :: items[i].0
  }

  lemma ItemKeysAppend(items: seq<(int, int)>, item: (int, int))
    ensures ItemKeys(items + [item]) == ItemKeys(items) + {item.0}
  {
    var all := items + [item];
    forall x | x in ItemKeys(all) ensures x in ItemKeys(items) + {item.0} {
      var i :| 0 <= i < |all| && all[i].0 == x;
      if i < |items| {
        assert all[i] == items[i];
      }
    }
    forall x | x in ItemKeys(items) ensures x in ItemKeys(all) {
      var i :| 0 <= i < |items| && items[i].0 == x;
      assert all[i] == items[i];
    }
    assert all[|items|] == item;
  }

  /** `sorted(d.items())` for a dict with int keys: its entries in ascending key order. */
  function SortedItems(m: map<int, int>): (r: seq<(int, int)>)
    ensures ItemKeys(r) == m.Keys
    ensures forall i :: 0 <= i < |r| ==> r[i].0 in m && r[i].1 == m[r[i].0]
    ensures forall i, j :: 0 <= i < j < |r| ==> r[i].0 < r[j].0
    decreases m.Keys
  {
    if m == map[] then
      []
    else
      var k := MaxOf(m.Keys);
      var rest := SortedItems(m - {k});
      AppendLargest(m, k, rest);
      rest + [(k, m[k])]
  }

  /** Appending the entry with the largest key to the sorted entries of the others sorts them all. */
  lemma AppendLargest(m: map<int, int>, k: int, rest: seq<(int, int)>)
    requires k in m && forall x :: x in m ==> x <= k
    requires ItemKeys(rest) == m.Keys - {k}
    requires forall i :: 0 <= i < |rest| ==> rest[i].0 in m && rest[i].1 == m[rest[i].0]
    requires forall i, j :: 0 <= i < j < |rest| ==> rest[i].0 < rest[j].0
    ensures ItemKeys(rest + [(k, m[k])]) == m.Keys
    ensures forall i :: 0 <= i < |rest + [(k, m[k])]| ==>
              (rest + [(k, m[k])])[i].0 in m && (rest + [(k, m[k])])[i].1 == m[(rest + [(k, m[k])])[i].0]
    ensures forall i, j :: 0 <= i < j < |rest + [(k, m[k])]| ==>
              (rest + [(k, m[k])])[i].0 < (rest + [(k, m[k])])[j].0
  {
    var r := rest + [(k, m[k])];
    ItemKeysAppend(rest, (k, m[k]));
    forall i | 0 <= i < |r| ensures r[i].0 in m && r[i].1 == m[r[i].0] {
      if i < |rest| {
        assert r[i] == rest[i];
      }
    }
    forall i, j | 0 <= i < j < |r| ensures r[i].0 < r[j].0 {
      assert r[i] == rest[i];
      if j < |rest| {
        assert r[j] == rest[j];
      } else {
        assert rest[i].0 in ItemKeys(rest);
      }
    }
  }

  /** The weights in ascending task-id order, as the generator computes them from the fetched counts. */
  function ProbabilityFn(fetched: map<int, nat>, allTaskIds: seq<int>): seq<(int, int)> {
    SortedItems(InvertedCounts(FilledCounts(fetched, allTaskIds)))
  }

  // ---------------------------------------------------------------------------------------------
  // get_probability_fn

  /** The ids among the first `n` entries of `ids`. */
  function PrefixIds(ids: seq<int>, n: int): set<int>
    requires 0 <= n <= |ids|
  {
    set j | 0 <= j < n :: ids[j]
  }

  lemma PrefixIdsStep(ids: seq<int>, i: int)
    requires 0 <= i < |ids|
    ensures PrefixIds(ids, i + 1) == PrefixIds(ids, i) + {ids[i]}
  {
  }

  lemma PrefixIdsAll(ids: seq<int>)
    ensures PrefixIds(ids, |ids|) == set t | t in ids
  {
    forall t | t in ids ensures t in PrefixIds(ids, |ids|) {
      var j :| 0 <= j < |ids| && ids[j] == t;
    }
  }

  /** The loop that adds every study task without a run, with count 0. */
  method AddMissingTasks(fetched: map<int, nat>, allTaskIds: seq<int>) returns (taskCounts: map<int, nat>)
    ensures taskCounts == FilledCounts(fetched, allTaskIds)
  {
    taskCounts := fetched;
    for i := 0 to |allTaskIds|
      invariant taskCounts.Keys == fetched.Keys + PrefixIds(allTaskIds, i)
      invariant forall t :: t in taskCounts ==> taskCounts[t] == if t in fetched then fetched[t] else 0
    {
      var taskId := allTaskIds[i];
      if taskId !in taskCounts {
        taskCounts := taskCounts[taskId := 0];
      }
      PrefixIdsStep(allTaskIds, i);
    }
    PrefixIdsAll(allTaskIds);
    assert taskCounts.Keys == FilledCounts(fetched, allTaskIds).Keys;
    forall t | t in taskCounts ensures taskCounts[t] == FilledCounts(fetched, allTaskIds)[t] {
    }
  }

  /** The loop that gives each counted task the weight `max_value - count`. */
  method Invert(taskCounts: map<int, nat>, maxValue: nat) returns (weights: map<int, int>)
    requires maxValue == MaxValue(taskCounts)
    ensures weights == InvertedCounts(taskCounts)
  {
    weights := map[];
    var todo := taskCounts.Keys;
    while todo != {}
      invariant todo <= taskCounts.Keys
      invariant weights.Keys == taskCounts.Keys - todo
      invariant forall t :: t in weights ==> weights[t] == maxValue - taskCounts[t]
      decreases todo
    {
      // the witness that lets the `:|` below find a task in the non-empty `todo`
      ghost var someTask := Member(todo);
      var taskId :| taskId in todo;
      weights := weights[taskId := maxValue - taskCounts[taskId]];
      todo := todo - {taskId};
    }
    assert weights.Keys == InvertedCounts(taskCounts).Keys;
    forall t | t in weights ensures weights[t] == InvertedCounts(taskCounts)[t] {
    }
  }

  /**
    `get_probability_fn` after the server call: `fetched` holds the run counts the server reported
    (empty when the flow does not exist there).
  */
  method GetProbabilityFn(fetched: map<int, nat>, allTaskIds: seq<int>) returns (probabilityFn: seq<(int, int)>)
    ensures probabilityFn == ProbabilityFn(fetched, allTaskIds)
  {
    var taskCounts := AddMissingTasks(fetched, allTaskIds);
    var maxValue := MaxValue(taskCounts);
    var weights := Invert(taskCounts, maxValue);
    probabilityFn := SortedItems(weights);
  }

  /** The result covers every counted task and every study task, in ascending id order, with its weight. */
  lemma ProbabilityFnShape(fetched: map<int, nat>, allTaskIds: seq<int>)
    ensures ItemKeys(ProbabilityFn(fetched, allTaskIds)) == fetched.Keys + (set t | t in allTaskIds)
    ensures forall i, j :: 0 <= i < j < |ProbabilityFn(fetched, allTaskIds)| ==>
              ProbabilityFn(fetched, allTaskIds)[i].0 < ProbabilityFn(fetched, allTaskIds)[j].0
    ensures forall i :: 0 <= i < |ProbabilityFn(fetched, allTaskIds)| ==>
              var (t, w) := ProbabilityFn(fetched, allTaskIds)[i];
              var counts := FilledCounts(fetched, allTaskIds);
              w == MaxValue(counts) - (if t in fetched then fetched[t] else 0)
  {
  }

  // ---------------------------------------------------------------------------------------------
  // The weighted list sampled from

  function Positive(n: int): nat {
    if n > 0 then n else 0
  }

  /** `[v for i in range(n)]`. */
  function Repeat(v: int, n: int): (r: seq<int>)
    ensures |r| == Positive(n)
    ensures forall i :: 0 <= i < |r| ==> r[i] == v
    decreases n
  {
    if n <= 0 then [] else [v] + Repeat(v, n - 1)
  }

  lemma {:induction false} RepeatCount(v: int, n: int, x: int)
    ensures multiset(Repeat(v, n))[x] == if x == v then Positive(n) else 0
    decreases n
  {
    if n > 0 {
      assert Repeat(v, n) == [v] + Repeat(v, n - 1);
      RepeatCount(v, n - 1, x);
    }
  }

  /** The sum of the positive weights. */
  function TotalWeight(items: seq<(int, int)>): nat {
    if items == [] then 0 else Positive(items[0].1) + TotalWeight(items[1..])
  }

  /** `[val for val, cnt in items for i in range(cnt)]`: each task repeated as often as its weight. */
  function SamplePool(items: seq<(int, int)>): (r: seq<int>)
    ensures |r| == TotalWeight(items)
    ensures forall x :: x in r ==> x in ItemKeys(items)
  {
    if items == [] then
      []
    else
      var rest := SamplePool(items[1..]);
      assert forall x :: x in rest ==> x in ItemKeys(items) by {
        forall x | x in rest ensures x in ItemKeys(items) {
          var i :| 0 <= i < |items[1..]| && items[1..][i].0 == x;
          assert items[i + 1].0 == x;
        }
      }
      Repeat(items[0].0, items[0].1) + rest
  }

  predicate DistinctKeys(items: seq<(int, int)>) {
    forall i, j :: 0 <= i < j < |items| ==> items[i].0 != items[j].0
  }

  /** With distinct task ids, the pool holds each task exactly as many times as its weight. */
  lemma {:induction false} SamplePoolCount(items: seq<(int, int)>, i: int)
    requires DistinctKeys(items)
    requires 0 <= i < |items|
    ensures multiset(SamplePool(items))[items[i].0] == Positive(items[i].1)
  {
    var rest := items[1..];
    var x := items[i].0;
    assert SamplePool(items) == Repeat(items[0].0, items[0].1) + SamplePool(rest);
    RepeatCount(items[0].0, items[0].1, x);
    if i == 0 {
      forall j | 0 <= j < |rest| ensures rest[j].0 != x {
        assert rest[j] == items[j + 1];
      }
      assert x !in ItemKeys(rest);
      assert x !in SamplePool(rest);
      assert multiset(SamplePool(rest))[x] == 0;
    } else {
      assert items[0].0 != x;
      SamplePoolCount(rest, i - 1);
    }
  }

  lemma SortedItemsDistinct(m: map<int, int>)
    ensures DistinctKeys(SortedItems(m))
  {
  }

  /** In the generator's own list, each task occurs exactly as often as its (positive) weight. */
  lemma ProbabilityFnPoolCount(fetched: map<int, nat>, allTaskIds: seq<int>, i: int)
    requires 0 <= i < |ProbabilityFn(fetched, allTaskIds)|
    ensures multiset(SamplePool(ProbabilityFn(fetched, allTaskIds)))[ProbabilityFn(fetched, allTaskIds)[i].0]
         == Positive(ProbabilityFn(fetched, allTaskIds)[i].1)
  {
    SortedItemsDistinct(InvertedCounts(FilledCounts(fetched, allTaskIds)));
    SamplePoolCount(ProbabilityFn(fetched, allTaskIds), i);
  }

  /** A task of weight 0 is never drawn. */
  lemma ZeroWeightNeverSampled(items: seq<(int, int)>, i: int)
    requires DistinctKeys(items)
    requires 0 <= i < |items| && items[i].1 <= 0
    ensures items[i].0 !in SamplePool(items)
  {
    SamplePoolCount(items, i);
  }

  /** The pool is empty exactly when no weight is positive. */
  lemma {:induction false} SamplePoolEmpty(items: seq<(int, int)>)
    ensures SamplePool(items) == [] <==> forall i :: 0 <= i < |items| ==> items[i].1 <= 0
  {
    if items != [] {
      SamplePoolEmpty(items[1..]);
      assert forall i :: 1 <= i < |items| ==> items[i].1 == items[1..][i - 1].1;
    }
  }

  // ---------------------------------------------------------------------------------------------
  // Equal positive counts leave nothing to sample

  /**
    As written: when every task has the same positive count, every weight is 0, the pool is empty,
    and `random.choice` raises on it.
  */
  lemma EqualCountsEmptyPool(counts: map<int, nat>, n: nat)
    requires n >= 1
    requires forall t :: t in counts ==> counts[t] == n
    ensures SamplePool(SortedItems(InvertedCounts(counts))) == []
  {
    if |counts| > 0 {
      var t := Member(counts.Keys);
      assert MaxValue(counts) == n;
    }
    var items := SortedItems(InvertedCounts(counts));
    SamplePoolEmpty(items);
  }

  /** One task with three runs of the flow: the pool `random.choice` receives is empty. */
  lemma SingleCountedTaskEmptyPool()
    ensures SamplePool(ProbabilityFn(map[31 := 3], [31])) == []
  {
    var counts := FilledCounts(map[31 := 3], [31]);
    assert counts == map[31 := 3];
    EqualCountsEmptyPool(counts, 3);
  }

  /** The weights with the intended fallback: uniform when the inverted counts are all 0. */
  function CorrectedWeights(counts: map<int, nat>): (r: map<int, int>)
    ensures r.Keys == counts.Keys
  {
    var weights := InvertedCounts(counts);
    if forall t :: t in weights ==> weights[t] == 0 then map t | t in counts :: 1 else weights
  }

  /** The list a task is drawn from, with the fallback. */
  function CorrectedSamplePool(fetched: map<int, nat>, allTaskIds: seq<int>): seq<int> {
    SamplePool(SortedItems(CorrectedWeights(FilledCounts(fetched, allTaskIds))))
  }


  /** A map with a positive weight gives a pool that is not empty. */
  lemma PositiveWeightSamplable(m: map<int, int>, u: int)
    requires u in m && m[u] > 0
    ensures SamplePool(SortedItems(m)) != []
  {
    var items := SortedItems(m);
    assert u in ItemKeys(items);
    var i :| 0 <= i < |items| && items[i].0 == u;
    SamplePoolEmpty(items);
  }

  /** The fallback leaves at least one positive weight whenever there is a task. */
  lemma CorrectedWeightsPositive(counts: map<int, nat>, t: int)
    requires t in counts
    ensures exists u :: u in CorrectedWeights(counts) && CorrectedWeights(counts)[u] > 0
  {
    var weights := InvertedCounts(counts);
    if forall u :: u in weights ==> weights[u] == 0 {
      assert CorrectedWeights(counts)[t] == 1;
    } else {
      var v :| v in weights && weights[v] != 0;
      assert CorrectedWeights(counts)[v] > 0;
    }
  }

  /** With the fallback, a task can always be drawn as soon as there is any task at all. */
  lemma CorrectedPoolNonEmpty(fetched: map<int, nat>, allTaskIds: seq<int>)
    requires |fetched| > 0 || |allTaskIds| > 0
    ensures CorrectedSamplePool(fetched, allTaskIds) != []
  {
    var counts := FilledCounts(fetched, allTaskIds);
    var t: int;
    if |fetched| > 0 {
      t := Member(fetched.Keys);
    } else {
      t := allTaskIds[0];
    }
    CorrectedWeightsPositive(counts, t);
    var u :| u in CorrectedWeights(counts) && CorrectedWeights(counts)[u] > 0;
    PositiveWeightSamplable(CorrectedWeights(counts), u);
  }

  /** Whenever the as-written pool is not empty, the fallback changes nothing. */
  lemma CorrectedAgreesWhenSamplable(fetched: map<int, nat>, allTaskIds: seq<int>)
    requires SamplePool(ProbabilityFn(fetched, allTaskIds)) != []
    ensures CorrectedSamplePool(fetched, allTaskIds) == SamplePool(ProbabilityFn(fetched, allTaskIds))
  {
    var counts := FilledCounts(fetched, allTaskIds);
    var items := SortedItems(InvertedCounts(counts));
    SamplePoolEmpty(items);
    var i :| 0 <= i < |items| && items[i].1 > 0;
    CorrectedWeightsUnchanged(counts, items[i].0);
  }

  /** Once some inverted count is not 0, the fallback leaves the weights as they are. */
  lemma CorrectedWeightsUnchanged(counts: map<int, nat>, t: int)
    requires t in counts && InvertedCounts(counts)[t] != 0
    ensures CorrectedWeights(counts) == InvertedCounts(counts)
  {
  }

  /** The fallback keeps the order reversal of the weighting. */
  lemma CorrectedWeightsReverseOrder(counts: map<int, nat>, a: int, b: int)
    requires a in counts && b in counts && counts[a] <= counts[b]
    ensures CorrectedWeights(counts)[a] >= CorrectedWeights(counts)[b]
  {
  }
}
