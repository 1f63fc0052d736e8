/** The job decomposition of `process_dataset`: the (batch, sample) and (drug1, drug2)
    groupings, the six row groups each job gathers, the tasks to skip, and the nested loops
    that submit one job per combination and persist one DatasetTask per submitted job. */
module TaskJobs {
  import opened Wrappers
  import opened ExtReals
  import opened Text
  import opened TaskData

  /** An outer group: `(batch, sample)`, or `(None, sample)` when there is no batch column. */
  datatype OuterKey = OuterKey(batch: Option<string>, sample: string)

  /** What identifies a job and its DatasetTask: `(drug1, drug2, sample, batch)`. */
  datatype JobKey = JobKey(drug1: string, drug2: string, sample: string, batch: Option<string>)

  /** `clear_existing`: None, 'unsuccessful' or True. */
  datatype ClearMode = KeepAll | ClearUnsuccessful | ClearAll

  /** An existing DatasetTask of the dataset, and whether its result is SUCCESS. */
  datatype ExistingTask = ExistingTask(key: JobKey, succeeded: bool)

  /** The dataset fields `process_dataset` reads. */
  datatype DatasetInfo = DatasetInfo(id: int, name: string, metricName: string, orientation: int, bounds: Bounds)

  /** Everything the loops read once validation is over. */
  datatype Plan = Plan(
    ds: DatasetInfo,
    hasBatch: bool,
    points: seq<Point>,
    constraint: Constraint,
    priority: Option<int>,
    skip: set<JobKey>)

  /** The keyword arguments of one `fit_drug_combination.apply_async` call, and its
      priority. `rows` is the concatenation of `df_list`; the column arguments are read
      from it by `lfrom` and `sfrom`. */
  datatype Job = Job(
    datasetId: int,
    drug1: string, drug2: string, sample: string, batch: Option<string>,
    rows: seq<Point>,
    eFix: Option<seq<ExtReal>>, eBnd: Option<seq<seq<ExtReal>>>,
    expt: string, metricName: string, hillOrient: int,
    priority: Option<int>)
  {
    function D1(): seq<real> { Lfrom(rows, Conc1Field) }
    function D2(): seq<real> { Lfrom(rows, Conc2Field) }
    function Dip(): seq<real> { Lfrom(rows, EffectField) }
    function DipSd(): seq<real> { Lfrom(rows, SdField) }
    function Drug1Units(): seq<string> { Sfrom(rows, Units1Field) }
    function Drug2Units(): seq<string> { Sfrom(rows, Units2Field) }
    function ExptDate(): seq<string> { Sfrom(rows, DateField) }
  }

  /** A DatasetTask row, linked to the submitted job by its id. */
  datatype TaskRecord = TaskRecord(
    datasetId: int, drug1: string, drug2: string, sample: string, batch: Option<string>, taskId: nat)

  // ---------------------------------------------------------------- skipping

  /** Lines 203-217: only with 'unsuccessful' are the successful tasks' keys skipped. */
  function TasksToSkip(clear: ClearMode, existing: seq<ExistingTask>): (r: set<JobKey>)
    ensures clear != ClearUnsuccessful ==> r == {}
    ensures clear == ClearUnsuccessful ==>
      forall k :: k in r <==> exists t :: t in existing && t.succeeded && t.key == k
  {
    if clear == ClearUnsuccessful then set t | t in existing && t.succeeded :: t.key else {}
  }

  // ---------------------------------------------------------------- grouping

  function OuterOf(hasBatch: bool, p: Point): OuterKey
  {
    OuterKey(if hasBatch then p.batch else None, p.sample)
  }

  function KeyOf(hasBatch: bool, p: Point): JobKey
  {
    JobKey(p.drug1, p.drug2, p.sample, if hasBatch then p.batch else None)
  }

  function Duals(plan: Plan): seq<Point>
  {
    Filter(plan.points, IsDual)
  }

  /** The outer key of each row, in order. */
  function OuterKeys(hasBatch: bool, ds: seq<Point>): (r: seq<OuterKey>)
    ensures |r| == |ds|
  {
    if |ds| == 0 then [] else OuterKeys(hasBatch, ds[..|ds| - 1]) + [OuterOf(hasBatch, ds[|ds| - 1])]
  }

  /** The drug pair of each row, in order. */
  function DrugPairs(g: seq<Point>): (r: seq<(string, string)>)
    ensures |r| == |g|
  {
    if |g| == 0 then [] else DrugPairs(g[..|g| - 1]) + [(g[|g| - 1].drug1, g[|g| - 1].drug2)]
  }

  lemma {:induction false} OuterKeysIndex(hasBatch: bool, ds: seq<Point>, i: nat)
    requires i < |ds|
    ensures OuterKeys(hasBatch, ds)[i] == OuterOf(hasBatch, ds[i])
  {
    if i < |ds| - 1 {
      OuterKeysIndex(hasBatch, ds[..|ds| - 1], i);
    }
  }

  lemma {:induction false} DrugPairsIndex(g: seq<Point>, i: nat)
    requires i < |g|
    ensures DrugPairs(g)[i] == (g[i].drug1, g[i].drug2)
  {
    if i < |g| - 1 {
      DrugPairsIndex(g[..|g| - 1], i);
    }
  }

  /** `data_expt.groupby(outer_grouping, sort=False)`: outer keys by first appearance. */
  function Outers(plan: Plan): seq<OuterKey>
  {
    Distinct(OuterKeys(plan.hasBatch, Duals(plan)))
  }

  /** The dual-agent rows of outer group `o`. */
  function GroupRows(plan: Plan, o: OuterKey): seq<Point>
  {
    Filter(Duals(plan), (p: Point) => OuterOf(plan.hasBatch, p) == o)
  }

  /** `samp_grp.groupby(['drug1', 'drug2'], sort=False)` inside outer group `o`. */
  function Inners(plan: Plan, o: OuterKey): seq<(string, string)>
  {
    Distinct(DrugPairs(GroupRows(plan, o)))
  }

  function JoinKey(o: OuterKey, drugs: (string, string)): JobKey
  {
    JobKey(drugs.0, drugs.1, o.sample, o.batch)
  }

  /** The keys the inner loop submits, over a prefix of its groups. */
  function PlannedIn(plan: Plan, o: OuterKey, inners: seq<(string, string)>): seq<JobKey>
  {
    if |inners| == 0 then []
    else
      var k := JoinKey(o, inners[|inners| - 1]);
      PlannedIn(plan, o, inners[..|inners| - 1]) + (if k in plan.skip then [] else [k])
  }

  /** The keys the outer loop submits, over a prefix of its groups. */
  function PlannedUpTo(plan: Plan, outers: seq<OuterKey>): seq<JobKey>
  {
    if |outers| == 0 then []
    else
      var o := outers[|outers| - 1];
      PlannedUpTo(plan, outers[..|outers| - 1]) + PlannedIn(plan, o, Inners(plan, o))
  }

  /** Every job the loops submit when nothing fails, in submission order. */
  function Planned(plan: Plan): seq<JobKey>
  {
    PlannedUpTo(plan, Outers(plan))
  }

  /** Lines 369-377: the dual-agent rows of the combination, the group's controls, its
      single-agent rows of either drug in the column it occupies, and those found in the
      other column with their drug columns swapped. `o` is the key's outer group. */
  function JobRows(plan: Plan, k: JobKey): seq<Point>
  {
    var o := OuterKey(k.batch, k.sample);
    var hb := plan.hasBatch;
    var ps := plan.points;
    Filter(ps, (p: Point) => IsDual(p) && OuterOf(hb, p) == o && p.drug1 == k.drug1 && p.drug2 == k.drug2)
    + Filter(ps, (p: Point) => IsControl(p) && OuterOf(hb, p) == o)
    + Filter(ps, (p: Point) => IsSingle1(p) && OuterOf(hb, p) == o && p.drug2 == k.drug2)
    + Filter(ps, (p: Point) => IsSingle2(p) && OuterOf(hb, p) == o && p.drug1 == k.drug1)
    + Swapped(Filter(ps, (p: Point) => IsSingle1(p) && OuterOf(hb, p) == o && p.drug2 == k.drug1))
    + Swapped(Filter(ps, (p: Point) => IsSingle2(p) && OuterOf(hb, p) == o && p.drug1 == k.drug2))
  }

  /** `_swap_drug1_drug2` on a selection of rows. */
  function Swapped(ps: seq<Point>): (r: seq<Point>)
    ensures |r| == |ps|
    ensures forall i :: 0 <= i < |ps| ==> r[i] == SwapPoint(ps[i])
  {
    seq(|ps|, i requires 0 <= i < |ps| => SwapPoint(ps[i]))
  }

  /** The numeric columns `lfrom` reads and the text columns `sfrom` reads. */
  datatype NumField = Conc1Field | Conc2Field | EffectField | SdField
  datatype TextField = Units1Field | Units2Field | DateField

  function NumOf(p: Point, f: NumField): real
  {
    match f
    case Conc1Field => p.conc1
    case Conc2Field => p.conc2
    case EffectField => p.effect
    case SdField => p.sd
  }

  function TextOf(p: Point, f: TextField): string
  {
    match f
    case Units1Field => p.units1
    case Units2Field => p.units2
    case DateField => p.exptDate
  }

  /** `lfrom(df_list, attr)` (line 335): the column, group after group. */
  function Lfrom(rs: seq<Point>, f: NumField): (r: seq<real>)
    ensures |r| == |rs|
  {
    if |rs| == 0 then [] else Lfrom(rs[..|rs| - 1], f) + [NumOf(rs[|rs| - 1], f)]
  }

  function Texts(rs: seq<Point>, f: TextField): (r: seq<string>)
    ensures |r| == |rs|
  {
    if |rs| == 0 then [] else Texts(rs[..|rs| - 1], f) + [TextOf(rs[|rs| - 1], f)]
  }

  /** `sfrom(df_list, attr)` (line 338): the column's distinct values. */
  function Sfrom(rs: seq<Point>, f: TextField): seq<string>
  {
    Distinct(Texts(rs, f))
  }

  lemma {:induction false} LfromIndex(rs: seq<Point>, f: NumField, i: nat)
    requires i < |rs|
    ensures Lfrom(rs, f)[i] == NumOf(rs[i], f)
  {
    if i < |rs| - 1 {
      LfromIndex(rs[..|rs| - 1], f, i);
    }
  }

  /** `sfrom` holds each value of the column exactly once. */
  lemma SfromValues(rs: seq<Point>, f: TextField)
    ensures NoDups(Sfrom(rs, f))
    ensures forall x :: x in Sfrom(rs, f) <==> x in Texts(rs, f)
  {
  }

  /** The job for one key. */
  function JobFor(plan: Plan, k: JobKey): (j: Job)
    ensures j.drug1 == k.drug1 && j.drug2 == k.drug2 && j.sample == k.sample && j.batch == k.batch
    ensures j.rows == JobRows(plan, k)
  {
    Job(plan.ds.id, k.drug1, k.drug2, k.sample, k.batch, JobRows(plan, k),
        plan.constraint.eFix, plan.constraint.eBnd,
        plan.ds.name, plan.ds.metricName, plan.ds.orientation, plan.priority)
  }

  /** The jobs for a list of keys, in order. */
  function JobsOf(plan: Plan, keys: seq<JobKey>): (r: seq<Job>)
    ensures |r| == |keys|
  {
    if |keys| == 0 then []
    else JobsOf(plan, keys[..|keys| - 1]) + [JobFor(plan, keys[|keys| - 1])]
  }

  /** The DatasetTasks of submitted keys, whose jobs got ids `base`, `base + 1`, ... */
  function RecordsOf(plan: Plan, keys: seq<JobKey>, base: nat): (r: seq<TaskRecord>)
    ensures |r| == |keys|
  {
    if |keys| == 0 then []
    else
      var k := keys[|keys| - 1];
      RecordsOf(plan, keys[..|keys| - 1], base)
        + [TaskRecord(plan.ds.id, k.drug1, k.drug2, k.sample, k.batch, base + |keys| - 1)]
  }

  /** Job `i` is the job for key `i`. */
  lemma {:induction false} JobsOfIndex(plan: Plan, keys: seq<JobKey>, i: nat)
    requires i < |keys|
    ensures JobsOf(plan, keys)[i] == JobFor(plan, keys[i])
  {
    if i < |keys| - 1 {
      JobsOfIndex(plan, keys[..|keys| - 1], i);
    }
  }

  /** Record `i` belongs to key `i` and holds the id `base + i`. */
  lemma {:induction false} RecordsOfIndex(plan: Plan, keys: seq<JobKey>, base: nat, i: nat)
    requires i < |keys|
    ensures RecordsOf(plan, keys, base)[i] ==
      TaskRecord(plan.ds.id, keys[i].drug1, keys[i].drug2, keys[i].sample, keys[i].batch, base + i)
  {
    if i < |keys| - 1 {
      RecordsOfIndex(plan, keys[..|keys| - 1], base, i);
    }
  }

  // ---------------------------------------------------------------- properties of the plan

  predicate FromDualRow(plan: Plan, k: JobKey)
  {
    exists i :: 0 <= i < |Duals(plan)| && KeyOf(plan.hasBatch, Duals(plan)[i]) == k
  }

  lemma {:induction false} PlannedInMembers(plan: Plan, o: OuterKey, inners: seq<(string, string)>, k: JobKey)
    ensures k in PlannedIn(plan, o, inners) <==>
      k !in plan.skip && exists d :: d in inners && k == JoinKey(o, d)
  {
    if |inners| > 0 {
      var p := inners[..|inners| - 1];
      assert inners == p + [inners[|inners| - 1]];
      PlannedInMembers(plan, o, p, k);
    }
  }

  lemma {:induction false} PlannedInNoDups(plan: Plan, o: OuterKey, inners: seq<(string, string)>)
    requires NoDups(inners)
    ensures NoDups(PlannedIn(plan, o, inners))
    ensures forall k :: k in PlannedIn(plan, o, inners) ==> k.sample == o.sample && k.batch == o.batch
  {
    if |inners| > 0 {
      var p := inners[..|inners| - 1];
      var d := inners[|inners| - 1];
      assert inners == p + [d];
      PlannedInNoDups(plan, o, p);
      PlannedInMembers(plan, o, p, JoinKey(o, d));
      forall k' | k' in PlannedIn(plan, o, inners)
        ensures k'.sample == o.sample && k'.batch == o.batch
      {
        PlannedInMembers(plan, o, inners, k');
      }
    }
  }

  lemma {:induction false} PlannedUpToMembers(plan: Plan, outers: seq<OuterKey>, k: JobKey)
    ensures k in PlannedUpTo(plan, outers) <==>
      exists o :: o in outers && k in PlannedIn(plan, o, Inners(plan, o))
  {
    if |outers| > 0 {
      var p := outers[..|outers| - 1];
      assert outers == p + [outers[|outers| - 1]];
      PlannedUpToMembers(plan, p, k);
    }
  }

  lemma {:induction false} PlannedUpToNoDups(plan: Plan, outers: seq<OuterKey>)
    requires NoDups(outers)
    ensures NoDups(PlannedUpTo(plan, outers))
  {
    if |outers| > 0 {
      var p := outers[..|outers| - 1];
      var o := outers[|outers| - 1];
      assert outers == p + [o];
      PlannedUpToNoDups(plan, p);
      var a := PlannedUpTo(plan, p);
      var b := PlannedIn(plan, o, Inners(plan, o));
      PlannedInNoDups(plan, o, Inners(plan, o));
      forall i, j | 0 <= i < |a| && 0 <= j < |b|
        ensures a[i] != b[j]
      {
        PlannedUpToMembers(plan, p, a[i]);
        var o' :| o' in p && a[i] in PlannedIn(plan, o', Inners(plan, o'));
        PlannedInNoDups(plan, o', Inners(plan, o'));
        assert o' != o;
      }
    }
  }

  /** Each drug pair of an outer group comes from one of the group's dual-agent rows. */
  lemma InnerFromRow(plan: Plan, o: OuterKey, d: (string, string)) returns (p: Point)
    requires d in Inners(plan, o)
    ensures p in Duals(plan) && OuterOf(plan.hasBatch, p) == o && (p.drug1, p.drug2) == d
  {
    var mask := (p: Point) => OuterOf(plan.hasBatch, p) == o;
    var g := GroupRows(plan, o);
    FilterMembers(Duals(plan), mask);
    var gs := DrugPairs(g);
    var t :| 0 <= t < |Distinct(gs)| && Distinct(gs)[t] == d;
    var n :| 0 <= n < |g| && gs[n] == d;
    DrugPairsIndex(g, n);
    assert mask(g[n]);
    p := g[n];
  }

  /** Every planned key is a dual-agent row's key, and not skipped. */
  lemma PlannedSound(plan: Plan, k: JobKey)
    requires k in Planned(plan)
    ensures k !in plan.skip && FromDualRow(plan, k)
  {
    PlannedUpToMembers(plan, Outers(plan), k);
    var o :| o in Outers(plan) && k in PlannedIn(plan, o, Inners(plan, o));
    PlannedInMembers(plan, o, Inners(plan, o), k);
    var d :| d in Inners(plan, o) && k == JoinKey(o, d);
    InnerKeyFromDualRow(plan, o, d);
  }

  /** The key an inner group submits is the key of one of its dual-agent rows. */
  lemma InnerKeyFromDualRow(plan: Plan, o: OuterKey, d: (string, string))
    requires d in Inners(plan, o)
    ensures FromDualRow(plan, JoinKey(o, d))
  {
    var p := InnerFromRow(plan, o, d);
    assert KeyOf(plan.hasBatch, p) == JoinKey(o, d);
    var ds := Duals(plan);
    var m :| 0 <= m < |ds| && ds[m] == p;
  }

  /** Every dual-agent row's key that is not skipped is planned. */
  lemma PlannedComplete(plan: Plan, k: JobKey)
    requires k !in plan.skip && FromDualRow(plan, k)
    ensures k in Planned(plan)
  {
    var ds := Duals(plan);
    var m :| 0 <= m < |ds| && KeyOf(plan.hasBatch, ds[m]) == k;
    var o := OuterOf(plan.hasBatch, ds[m]);
    OuterKeysIndex(plan.hasBatch, ds, m);
    assert o in OuterKeys(plan.hasBatch, ds);
    assert o in Outers(plan);
    var mask := (p: Point) => OuterOf(plan.hasBatch, p) == o;
    var g := GroupRows(plan, o);
    FilterMembers(ds, mask);
    assert ds[m] in g;
    var n :| 0 <= n < |g| && g[n] == ds[m];
    DrugPairsIndex(g, n);
    assert DrugPairs(g)[n] == (ds[m].drug1, ds[m].drug2);
    assert (ds[m].drug1, ds[m].drug2) in Inners(plan, o);
    assert k == JoinKey(o, (ds[m].drug1, ds[m].drug2));
    PlannedInMembers(plan, o, Inners(plan, o), k);
    PlannedUpToMembers(plan, Outers(plan), k);
  }

  /** Exactly one job per distinct (drug1, drug2, sample, batch) among the dual-agent rows
      that is not skipped, and no key twice. */
  lemma PlannedExactlyOnce(plan: Plan, k: JobKey)
    ensures NoDups(Planned(plan))
    ensures k in Planned(plan) <==> k !in plan.skip && FromDualRow(plan, k)
  {
    PlannedUpToNoDups(plan, Outers(plan));
    if k in Planned(plan) {
      PlannedSound(plan, k);
    }
    if k !in plan.skip && FromDualRow(plan, k) {
      PlannedComplete(plan, k);
    }
  }

  /** A row that belongs in the job for `k`: from its batch and sample (the outer group,
      the batch counting only when the upload has one), drug1 present only as the job's
      drug1 and drug2 present only as the job's drug2. */
  predicate FitsKey(hb: bool, k: JobKey, p: Point)
  {
    OuterOf(hb, p) == OuterKey(k.batch, k.sample)
    && (p.conc1 != 0.0 ==> p.drug1 == k.drug1) && (p.conc2 != 0.0 ==> p.drug2 == k.drug2)
  }

  predicate AllFit(hb: bool, k: JobKey, rs: seq<Point>)
  {
    forall i :: 0 <= i < |rs| ==> FitsKey(hb, k, rs[i])
  }

  lemma AllFitConcat(hb: bool, k: JobKey, a: seq<Point>, b: seq<Point>)
    requires AllFit(hb, k, a) && AllFit(hb, k, b)
    ensures AllFit(hb, k, a + b)
  {
    forall i | 0 <= i < |a + b|
      ensures FitsKey(hb, k, (a + b)[i])
    {
      if i >= |a| {
        assert (a + b)[i] == b[i - |a|];
      }
    }
  }

  /** Rows a mask selects all fit when the mask implies fitting. */
  lemma FilterFits(hb: bool, k: JobKey, ps: seq<Point>, p: Point -> bool)
    requires forall x :: p(x) ==> FitsKey(hb, k, x)
    ensures AllFit(hb, k, Filter(ps, p))
  {
    FilterMembers(ps, p);
  }

  /** Rows whose swap fits: swapping them in (lines 374-376) makes them fit. */
  lemma SwappedFits(hb: bool, k: JobKey, ps: seq<Point>, p: Point -> bool)
    requires forall x :: p(x) ==> FitsKey(hb, k, SwapPoint(x))
    ensures AllFit(hb, k, Swapped(Filter(ps, p)))
  {
    FilterMembers(ps, p);
  }

  /** Every row of a job belongs in it: the swapped single-agent groups put each drug in
      its job column (lines 369-377). */
  lemma JobRowsMatchDrugs(plan: Plan, k: JobKey)
    ensures AllFit(plan.hasBatch, k, JobRows(plan, k))
  {
    var o := OuterKey(k.batch, k.sample);
    var hb := plan.hasBatch;
    var ps := plan.points;
    FilterFits(hb, k, ps, (p: Point) => IsDual(p) && OuterOf(hb, p) == o && p.drug1 == k.drug1 && p.drug2 == k.drug2);
    FilterFits(hb, k, ps, (p: Point) => IsControl(p) && OuterOf(hb, p) == o);
    FilterFits(hb, k, ps, (p: Point) => IsSingle1(p) && OuterOf(hb, p) == o && p.drug2 == k.drug2);
    FilterFits(hb, k, ps, (p: Point) => IsSingle2(p) && OuterOf(hb, p) == o && p.drug1 == k.drug1);
    SwappedFits(hb, k, ps, (p: Point) => IsSingle1(p) && OuterOf(hb, p) == o && p.drug2 == k.drug1);
    SwappedFits(hb, k, ps, (p: Point) => IsSingle2(p) && OuterOf(hb, p) == o && p.drug1 == k.drug2);
    var g1 := Filter(ps, (p: Point) => IsDual(p) && OuterOf(hb, p) == o && p.drug1 == k.drug1 && p.drug2 == k.drug2);
    var g2 := Filter(ps, (p: Point) => IsControl(p) && OuterOf(hb, p) == o);
    var g3 := Filter(ps, (p: Point) => IsSingle1(p) && OuterOf(hb, p) == o && p.drug2 == k.drug2);
    var g4 := Filter(ps, (p: Point) => IsSingle2(p) && OuterOf(hb, p) == o && p.drug1 == k.drug1);
    var g5 := Swapped(Filter(ps, (p: Point) => IsSingle1(p) && OuterOf(hb, p) == o && p.drug2 == k.drug1));
    var g6 := Swapped(Filter(ps, (p: Point) => IsSingle2(p) && OuterOf(hb, p) == o && p.drug1 == k.drug2));
    AllFitConcat(hb, k, g1, g2);
    AllFitConcat(hb, k, g1 + g2, g3);
    AllFitConcat(hb, k, g1 + g2 + g3, g4);
    AllFitConcat(hb, k, g1 + g2 + g3 + g4, g5);
    AllFitConcat(hb, k, g1 + g2 + g3 + g4 + g5, g6);
  }

  // ---------------------------------------------------------------- prefixes of the plan

  predicate SeqPrefix<T(==)>(a: seq<T>, b: seq<T>)
  {
    |a| <= |b| && b[..|a|] == a
  }

  lemma {:induction false} PlannedInPrefix(plan: Plan, o: OuterKey, inners: seq<(string, string)>, j: nat)
    requires j <= |inners|
    ensures SeqPrefix(PlannedIn(plan, o, inners[..j]), PlannedIn(plan, o, inners))
  {
    if j < |inners| {
      var p := inners[..|inners| - 1];
      assert p[..j] == inners[..j];
      PlannedInPrefix(plan, o, p, j);
    } else {
      assert inners[..j] == inners;
    }
  }

  lemma {:induction false} PlannedUpToPrefix(plan: Plan, outers: seq<OuterKey>, i: nat)
    requires i <= |outers|
    ensures SeqPrefix(PlannedUpTo(plan, outers[..i]), PlannedUpTo(plan, outers))
  {
    if i < |outers| {
      var p := outers[..|outers| - 1];
      assert p[..i] == outers[..i];
      PlannedUpToPrefix(plan, p, i);
    } else {
      assert outers[..i] == outers;
    }
  }

  lemma AppendAssoc<T>(a: seq<T>, b: seq<T>, c: seq<T>)
    ensures (a + b) + c == a + (b + c)
  {
  }

  lemma PrefixAppend<T>(a: seq<T>, b1: seq<T>, b2: seq<T>, c: seq<T>)
    requires SeqPrefix(b1, b2) && SeqPrefix(a + b2, c)
    ensures SeqPrefix(a + b1, c)
  {
    assert (a + b2)[..|a + b1|] == a + b1;
  }

  lemma PlannedUpToSnoc(plan: Plan, outers: seq<OuterKey>, i: nat)
    requires i < |outers|
    ensures PlannedUpTo(plan, outers[..i + 1]) ==
      PlannedUpTo(plan, outers[..i]) + PlannedIn(plan, outers[i], Inners(plan, outers[i]))
  {
    assert outers[..i + 1][..i] == outers[..i];
  }

  /** What the loops have submitted at outer index `i`, inner index `j`. */
  function SubmittedAt(plan: Plan, outers: seq<OuterKey>, i: nat, j: nat): seq<JobKey>
    requires i < |outers| && j <= |Inners(plan, outers[i])|
  {
    PlannedUpTo(plan, outers[..i]) + PlannedIn(plan, outers[i], Inners(plan, outers[i])[..j])
  }

  lemma SubmittedAtIsPrefix(plan: Plan, outers: seq<OuterKey>, i: nat, j: nat)
    requires i < |outers| && j <= |Inners(plan, outers[i])|
    ensures SeqPrefix(SubmittedAt(plan, outers, i, j), PlannedUpTo(plan, outers))
  {
    var o := outers[i];
    PlannedInPrefix(plan, o, Inners(plan, o), j);
    PlannedUpToPrefix(plan, outers, i + 1);
    PlannedUpToSnoc(plan, outers, i);
    PrefixAppend(PlannedUpTo(plan, outers[..i]), PlannedIn(plan, o, Inners(plan, o)[..j]),
                 PlannedIn(plan, o, Inners(plan, o)), PlannedUpTo(plan, outers));
  }

  lemma SubmittedAtStart(plan: Plan, outers: seq<OuterKey>, i: nat)
    requires i < |outers|
    ensures SubmittedAt(plan, outers, i, 0) == PlannedUpTo(plan, outers[..i])
  {
    assert Inners(plan, outers[i])[..0] == [];
  }

  lemma SubmittedAtStep(plan: Plan, outers: seq<OuterKey>, i: nat, j: nat)
    requires i < |outers| && j < |Inners(plan, outers[i])|
    ensures var k := JoinKey(outers[i], Inners(plan, outers[i])[j]);
            SubmittedAt(plan, outers, i, j + 1) ==
              SubmittedAt(plan, outers, i, j) + (if k in plan.skip then [] else [k])
  {
    var inners := Inners(plan, outers[i]);
    assert inners[..j + 1][..j] == inners[..j];
  }

  /** A pair refused by the queue leaves a proper prefix of the plan submitted. */
  lemma SubmitRefused(plan: Plan, outers: seq<OuterKey>, i: nat, j: nat)
    requires i < |outers| && j < |Inners(plan, outers[i])|
    requires JoinKey(outers[i], Inners(plan, outers[i])[j]) !in plan.skip
    ensures SeqPrefix(SubmittedAt(plan, outers, i, j), PlannedUpTo(plan, outers))
    ensures |SubmittedAt(plan, outers, i, j)| < |PlannedUpTo(plan, outers)|
  {
    SubmittedAtStep(plan, outers, i, j);
    SubmittedAtIsPrefix(plan, outers, i, j + 1);
    var a := SubmittedAt(plan, outers, i, j);
    var b := PlannedUpTo(plan, outers);
    var key := JoinKey(outers[i], Inners(plan, outers[i])[j]);
    assert SeqPrefix(a + [key], b);
    assert b[..|a|] == (b[..|a| + 1])[..|a|] == (a + [key])[..|a|] == a;
  }

  lemma SubmittedAtOuterStep(plan: Plan, outers: seq<OuterKey>, i: nat)
    requires i < |outers|
    ensures SubmittedAt(plan, outers, i, |Inners(plan, outers[i])|) == PlannedUpTo(plan, outers[..i + 1])
  {
    PlannedUpToSnoc(plan, outers, i);
    assert Inners(plan, outers[i])[..|Inners(plan, outers[i])|] == Inners(plan, outers[i]);
  }

  // ---------------------------------------------------------------- queue and table

  /** The job queue: `Submit` is `apply_async`, and fails once `capacity` jobs are waiting
      (the broker refusing work). A job's id is its position. */
  class JobQueue {
    var jobs: seq<Job>
    const capacity: nat

    constructor(capacity: nat)
      ensures jobs == [] && this.capacity == capacity
    {
      jobs := [];
      this.capacity := capacity;
    }

    method Submit(j: Job) returns (id: Option<nat>)
      modifies this
      ensures |old(jobs)| < capacity ==> jobs == old(jobs) + [j] && id == Some(|old(jobs)|)
      ensures |old(jobs)| >= capacity ==> jobs == old(jobs) && id == None
    {
      if |jobs| < capacity {
        id := Some(|jobs|);
        jobs := jobs + [j];
      } else {
        id := None;
      }
    }
  }

  /** The DatasetTask table. */
  class TaskTable {
    var rows: seq<TaskRecord>

    constructor()
      ensures rows == []
    {
      rows := [];
    }

    /** `DatasetTask.objects.bulk_create`. */
    method BulkCreate(ts: seq<TaskRecord>)
      modifies this
      ensures rows == old(rows) + ts
    {
      rows := rows + ts;
    }
  }

  // ---------------------------------------------------------------- process_dataset

  /** Validation, priority, global constraint and drug order: what the loops start from. */
  function Prepare(ds: DatasetInfo, u: Upload, clear: ClearMode, existing: seq<ExistingTask>,
                   requested: Option<int>, sizeL2: int, sizeL3: int): Result<Plan, TaskError>
  {
    var ps :- Validate(u);
    Ok(Plan(ds, u.hasBatch, Canonicalise(ps), GlobalConstraint(ds.bounds),
            PickPriority(requested, |ps|, sizeL2, sizeL3), TasksToSkip(clear, existing)))
  }

  /** How many of `wanted` jobs a queue already holding `held` of `capacity` accepts. */
  function Accepted(wanted: nat, held: nat, capacity: nat): (n: nat)
    ensures n <= wanted
  {
    var room := if held < capacity then capacity - held else 0;
    if wanted <= room then wanted else room
  }

  /** A queue with room for every key accepts them all. */
  lemma AllAccepted(keys: seq<JobKey>, held: nat, capacity: nat)
    requires |keys| == 0 || held + |keys| <= capacity
    ensures keys[..Accepted(|keys|, held, capacity)] == keys
  {
  }

  /** A queue that filled up after taking a proper prefix of the keys accepted exactly
      that prefix. */
  lemma StoppedAtCapacity(keys: seq<JobKey>, done: seq<JobKey>, held: nat, capacity: nat)
    requires SeqPrefix(done, keys) && |done| < |keys| && held + |done| >= capacity
    requires |done| == 0 || held + |done| <= capacity
    ensures done == keys[..Accepted(|keys|, held, capacity)]
  {
  }

  lemma JobsOfSnoc(plan: Plan, keys: seq<JobKey>, k: JobKey, base: nat)
    ensures JobsOf(plan, keys + [k]) == JobsOf(plan, keys) + [JobFor(plan, k)]
    ensures RecordsOf(plan, keys + [k], base) ==
      RecordsOf(plan, keys, base) + [TaskRecord(plan.ds.id, k.drug1, k.drug2, k.sample, k.batch, base + |keys|)]
  {
    assert (keys + [k])[..|keys|] == keys;
  }

  /** Lines 379-411 for one pair: the job is handed to the queue and, once accepted, its
      DatasetTask is recorded under the id the queue gave it. */
  method SubmitOne(plan: Plan, key: JobKey, queue: JobQueue,
                   ghost start: seq<Job>, ghost done: seq<JobKey>, tasks0: seq<TaskRecord>)
    returns (ok: bool, tasks: seq<TaskRecord>)
    requires queue.jobs == start + JobsOf(plan, done)
    requires tasks0 == RecordsOf(plan, done, |start|)
    modifies queue
    ensures ok <==> |start| + |done| < queue.capacity
    ensures ok ==> queue.jobs == start + JobsOf(plan, done + [key])
                   && tasks == RecordsOf(plan, done + [key], |start|)
    ensures !ok ==> queue.jobs == old(queue.jobs) && tasks == tasks0
  {
    var job := JobFor(plan, key);
    var id := queue.Submit(job);
    JobsOfSnoc(plan, done, key, |start|);
    AppendAssoc(start, JobsOf(plan, done), [job]);
    if id.None? {
      ok, tasks := false, tasks0;
    } else {
      ok := true;
      assert id.value == |start| + |done|;
      var rec := TaskRecord(plan.ds.id, key.drug1, key.drug2, key.sample, key.batch, id.value);
      assert RecordsOf(plan, done + [key], |start|) == RecordsOf(plan, done, |start|) + [rec];
      tasks := tasks0 + [rec];
    }
  }

  /** One step of the inner loop (lines 365-411): a skipped pair is passed over, any other
      is submitted; `ok` is false when the queue refused it. */
  method SubmitPair(plan: Plan, outers: seq<OuterKey>, i: nat, j: nat, queue: JobQueue,
                    ghost start: seq<Job>, ghost done0: seq<JobKey>, tasks0: seq<TaskRecord>)
    returns (ghost done: seq<JobKey>, tasks: seq<TaskRecord>, ok: bool)
    requires i < |outers| && j < |Inners(plan, outers[i])|
    requires done0 == SubmittedAt(plan, outers, i, j)
    requires queue.jobs == start + JobsOf(plan, done0)
    requires tasks0 == RecordsOf(plan, done0, |start|)
    requires |done0| == 0 || |start| + |done0| <= queue.capacity
    modifies queue
    ensures queue.jobs == start + JobsOf(plan, done)
    ensures tasks == RecordsOf(plan, done, |start|)
    ensures |done| == 0 || |start| + |done| <= queue.capacity
    ensures ok ==> done == SubmittedAt(plan, outers, i, j + 1)
    ensures !ok ==> SeqPrefix(done, PlannedUpTo(plan, outers)) && |done| < |PlannedUpTo(plan, outers)|
                    && |start| + |done| >= queue.capacity
  {
    var key := JoinKey(outers[i], Inners(plan, outers[i])[j]);
    SubmittedAtStep(plan, outers, i, j);
    done, tasks, ok := done0, tasks0, true;
    if key !in plan.skip {
      ok, tasks := SubmitOne(plan, key, queue, start, done, tasks);
      if ok {
        done := done + [key];
      } else {
        SubmitRefused(plan, outers, i, j);
      }
    }
  }

  /** One run of the inner loop (lines 363-411) over the drug pairs of `outers[i]`: each
      pair not skipped is submitted, and its DatasetTask recorded, until the queue refuses
      one. `done` lists the keys submitted so far. */
  method SubmitGroup(plan: Plan, outers: seq<OuterKey>, i: nat, queue: JobQueue,
                     ghost start: seq<Job>, ghost done0: seq<JobKey>, tasks0: seq<TaskRecord>)
    returns (ghost done: seq<JobKey>, tasks: seq<TaskRecord>, failed: bool)
    requires i < |outers|
    requires done0 == PlannedUpTo(plan, outers[..i])
    requires queue.jobs == start + JobsOf(plan, done0)
    requires tasks0 == RecordsOf(plan, done0, |start|)
    requires |done0| == 0 || |start| + |done0| <= queue.capacity
    modifies queue
    ensures queue.jobs == start + JobsOf(plan, done)
    ensures tasks == RecordsOf(plan, done, |start|)
    ensures |done| == 0 || |start| + |done| <= queue.capacity
    ensures !failed ==> done == PlannedUpTo(plan, outers[..i + 1])
    ensures failed ==> SeqPrefix(done, PlannedUpTo(plan, outers)) && |done| < |PlannedUpTo(plan, outers)|
                       && |start| + |done| >= queue.capacity
  {
    done, tasks, failed := done0, tasks0, false;
    var o := outers[i];
    var inners := Inners(plan, o);
    var j := 0;
    SubmittedAtStart(plan, outers, i);
    while j < |inners|
      invariant 0 <= j <= |inners|
      invariant done == SubmittedAt(plan, outers, i, j)
      invariant queue.jobs == start + JobsOf(plan, done)
      invariant tasks == RecordsOf(plan, done, |start|)
      invariant |done| == 0 || |start| + |done| <= queue.capacity
    {
      var ok;
      done, tasks, ok := SubmitPair(plan, outers, i, j, queue, start, done, tasks);
      if !ok {
        failed := true;
        return;
      }
      assert done == SubmittedAt(plan, outers, i, j + 1);
      j := j + 1;
    }
    assert done == SubmittedAt(plan, outers, i, |inners|);
    SubmittedAtOuterStep(plan, outers, i);
  }

  /** The outer loop (line 344) over the (batch, sample) groups. */
  method SubmitAll(plan: Plan, outers: seq<OuterKey>, queue: JobQueue)
    returns (tasks: seq<TaskRecord>, failed: bool)
    modifies queue
    ensures var keys := PlannedUpTo(plan, outers);
      var n := Accepted(|keys|, |old(queue.jobs)|, queue.capacity);
      queue.jobs == old(queue.jobs) + JobsOf(plan, keys[..n]) &&
      tasks == RecordsOf(plan, keys[..n], |old(queue.jobs)|) &&
      (failed <==> n < |keys|)
  {
    ghost var start := queue.jobs;
    ghost var done: seq<JobKey> := [];
    tasks, failed := [], false;
    var i := 0;
    while i < |outers| && !failed
      invariant 0 <= i <= |outers|
      invariant !failed ==> done == PlannedUpTo(plan, outers[..i])
      invariant failed ==> SeqPrefix(done, PlannedUpTo(plan, outers)) && |done| < |PlannedUpTo(plan, outers)|
                           && |start| + |done| >= queue.capacity
      invariant queue.jobs == start + JobsOf(plan, done)
      decreases |outers| - i, if failed then 0 else 1
      invariant tasks == RecordsOf(plan, done, |start|)
      invariant |done| == 0 || |start| + |done| <= queue.capacity
    {
      done, tasks, failed := SubmitGroup(plan, outers, i, queue, start, done, tasks);
      if !failed {
        i := i + 1;
      }
    }
    var keys := PlannedUpTo(plan, outers);
    if !failed {
      assert outers[..i] == outers;
      AllAccepted(keys, |start|, queue.capacity);
    } else {
      StoppedAtCapacity(keys, done, |start|, queue.capacity);
    }
  }

  /** Lines 203-413. A rejected upload changes nothing; otherwise the planned jobs are
      submitted in order until the queue refuses one, and the DatasetTasks of every job
      submitted before that are persisted either way. */
  method ProcessDataset(ds: DatasetInfo, u: Upload, clear: ClearMode, existing: seq<ExistingTask>,
                        requested: Option<int>, sizeL2: int, sizeL3: int,
                        queue: JobQueue, table: TaskTable)
    returns (r: Result<(), TaskError>)
    modifies queue, table
    ensures var pr := Prepare(ds, u, clear, existing, requested, sizeL2, sizeL3);
      (pr.Err? ==> r == Err(pr.error) && queue.jobs == old(queue.jobs) && table.rows == old(table.rows)) &&
      (pr.Ok? ==>
        var keys := Planned(pr.value);
        var n := Accepted(|keys|, |old(queue.jobs)|, queue.capacity);
        queue.jobs == old(queue.jobs) + JobsOf(pr.value, keys[..n]) &&
        table.rows == old(table.rows) + RecordsOf(pr.value, keys[..n], |old(queue.jobs)|) &&
        (r.Ok? <==> n == |keys|) &&
        (r.Err? ==> r.error == BrokerError))
  {
    var skip := TasksToSkip(clear, existing);
    var v := Validate(u);
    if v.Err? {
      return Err(v.error);
    }
    var ps := v.value;
    var priority := PickPriority(requested, |ps|, sizeL2, sizeL3);
    var constraint := GlobalConstraint(ds.bounds);
    var frame := new Point[|ps|](i requires 0 <= i < |ps| => ps[i]);
    assert frame[..] == ps;
    CanonicaliseFrame(frame);
    var plan := Plan(ds, u.hasBatch, frame[..], constraint, priority, skip);
    assert Prepare(ds, u, clear, existing, requested, sizeL2, sizeL3) == Ok(plan);
    var tasks, failed := SubmitAll(plan, Outers(plan), queue);
    table.BulkCreate(tasks);
    r := if failed then Err(BrokerError) else Ok(());
  }
}
