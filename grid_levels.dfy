/** Grid levels of the enhanced grid controller and the rules by which an
    update of the level list is merged: pruning of levels the update leaves
    out, field updates of existing levels, appending of new levels, and
    truncation to the maximum level count by priority. */
module GridLevels {
  import opened Common
  import opened RiskConfig

  datatype TakeProfitBatch = TakeProfitBatch(
    level: int, profitRatio: real, reboundRatio: real, portion: real, status: string)

  datatype GridLevel = GridLevel(
    level: int,
    amount: real,
    openRatio: real,
    openReboundRatio: real,
    takeProfitBatches: seq<TakeProfitBatch>,
    status: string,
    isActive: bool)

  const NotOpened := "未开仓"
  const PendingOpen := "待开仓"

  /** One entry of an update's level list: the level number and whichever other keys it carries. */
  datatype LevelUpdate = LevelUpdate(
    level: int,
    amount: Option<real>,
    openRatio: Option<real>,
    openReboundRatio: Option<real>,
    takeProfitBatches: Option<seq<TakeProfitBatch>>,
    status: Option<string>,
    isActive: Option<bool>)

  predicate HasLevel(ls: seq<GridLevel>, n: int)
  {
    exists k :: 0 <= k < |ls| && ls[k].level == n
  }

  function UpdateIds(data: seq<LevelUpdate>): (ids: set<int>)
    ensures forall n :: n in ids <==> exists k :: 0 <= k < |data| && data[k].level == n
  {
    if data == [] then {} else {data[0].level} + UpdateIds(data[1..])
  }

  // ---- pruning the levels an update leaves out ----

  /** What becomes of level `k` when the update does not mention its number:
      a level with an executor is kept but deactivated (only the last level
      of that number is the one deactivated), any other is deleted. */
  function PruneOne(ls: seq<GridLevel>, k: nat, ids: set<int>, backed: set<int>): seq<GridLevel>
    requires k < |ls|
  {
    var lv := ls[k];
    if lv.level in ids then [lv]
    else if lv.level !in backed then []
    else if HasLevel(ls[k + 1..], lv.level) then [lv]
    else [lv.(isActive := false)]
  }

  function PrunedPrefix(ls: seq<GridLevel>, n: nat, ids: set<int>, backed: set<int>): seq<GridLevel>
    requires n <= |ls|
  {
    if n == 0 then [] else PrunedPrefix(ls, n - 1, ids, backed) + PruneOne(ls, n - 1, ids, backed)
  }

  function Pruned(ls: seq<GridLevel>, ids: set<int>, backed: set<int>): seq<GridLevel>
  {
    PrunedPrefix(ls, |ls|, ids, backed)
  }

  /** After pruning, exactly the levels whose number the update mentions or
      that have an executor are left, in their order. A mentioned level is kept
      as it is; a left-out executor level is deactivated when it is the last
      level of its number, and kept as it is when a later one shares it. */
  /** What pruning does to each level: a mentioned level is kept as it is, and a
      left-out executor level is kept as it is when a later level shares its
      number, and deactivated when it is the last one. */
  lemma {:induction false} PrunedFate(ls: seq<GridLevel>, n: nat, ids: set<int>, backed: set<int>)
    requires n <= |ls|
    ensures forall k :: 0 <= k < n && ls[k].level in ids ==> ls[k] in PrunedPrefix(ls, n, ids, backed)
    ensures forall k :: 0 <= k < n && ls[k].level !in ids && ls[k].level in backed && HasLevel(ls[k + 1..], ls[k].level) ==>
      ls[k] in PrunedPrefix(ls, n, ids, backed)
    ensures forall k :: 0 <= k < n && ls[k].level !in ids && ls[k].level in backed && !HasLevel(ls[k + 1..], ls[k].level) ==>
      ls[k].(isActive := false) in PrunedPrefix(ls, n, ids, backed)
  {
    if n > 0 {
      PrunedFate(ls, n - 1, ids, backed);
      var p := PrunedPrefix(ls, n - 1, ids, backed);
      var q := PruneOne(ls, n - 1, ids, backed);
      assert forall x :: x in p ==> x in p + q;
      var lv := ls[n - 1];
      if lv.level in ids || (lv.level in backed && HasLevel(ls[n..], lv.level)) {
        assert lv in p + q;
      } else if lv.level in backed {
        assert lv.(isActive := false) in p + q;
      }
    }
  }

  lemma {:induction false} PrunedKeeps(ls: seq<GridLevel>, n: nat, ids: set<int>, backed: set<int>)
    requires n <= |ls|
    ensures forall x :: x in PrunedPrefix(ls, n, ids, backed) ==> x.level in ids || x.level in backed
    ensures forall k :: 0 <= k < n && (ls[k].level in ids || ls[k].level in backed) ==>
      ls[k] in PrunedPrefix(ls, n, ids, backed) || ls[k].(isActive := false) in PrunedPrefix(ls, n, ids, backed)
    ensures forall k :: 0 <= k < n && ls[k].level in ids ==> ls[k] in PrunedPrefix(ls, n, ids, backed)
    ensures forall k :: 0 <= k < n && ls[k].level !in ids && ls[k].level in backed && HasLevel(ls[k + 1..], ls[k].level) ==>
      ls[k] in PrunedPrefix(ls, n, ids, backed)
    ensures forall k :: 0 <= k < n && ls[k].level !in ids && ls[k].level in backed && !HasLevel(ls[k + 1..], ls[k].level) ==>
      ls[k].(isActive := false) in PrunedPrefix(ls, n, ids, backed)
    ensures forall x :: x in PrunedPrefix(ls, n, ids, backed) && x.level in ids ==> x in ls[..n]
    ensures |PrunedPrefix(ls, n, ids, backed)| <= n
  {
    PrunedFate(ls, n, ids, backed);
    if n > 0 {
      PrunedKeeps(ls, n - 1, ids, backed);
      var p := PrunedPrefix(ls, n - 1, ids, backed);
      var q := PruneOne(ls, n - 1, ids, backed);
      assert forall x :: x in p + q <==> x in p || x in q;
      assert ls[..n] == ls[..n - 1] + [ls[n - 1]];
    }
  }

  // ---- applying the update's entries ----

  /** An entry for a level with an executor keeps only `isActive` and `takeProfitBatches`. */
  function Restricted(d: LevelUpdate): LevelUpdate
  {
    LevelUpdate(d.level, None, None, None, d.takeProfitBatches, None, d.isActive)
  }

  /** A new level needs its amount and both ratios; the rest take their defaults. */
  predicate Complete(d: LevelUpdate)
  {
    d.amount.Some? && d.openRatio.Some? && d.openReboundRatio.Some?
  }

  /** The level built from every key of the entry; the keys it lacks take their defaults. */
  function NewLevel(d: LevelUpdate): (lv: GridLevel)
    requires Complete(d)
    ensures lv.level == d.level && lv.amount == d.amount.value
    ensures lv.openRatio == d.openRatio.value && lv.openReboundRatio == d.openReboundRatio.value
    ensures lv.status == Pick(d.status, NotOpened)
    ensures lv.isActive == Pick(d.isActive, true) && lv.takeProfitBatches == Pick(d.takeProfitBatches, [])
  {
    GridLevel(d.level, d.amount.value, d.openRatio.value, d.openReboundRatio.value,
              Pick(d.takeProfitBatches, []), Pick(d.status, NotOpened), Pick(d.isActive, true))
  }

  /** Every key of the entry except `level` and `status` is set on the existing level. */
  function Merged(lv: GridLevel, d: LevelUpdate): GridLevel
  {
    lv.(amount := Pick(d.amount, lv.amount),
        openRatio := Pick(d.openRatio, lv.openRatio),
        openReboundRatio := Pick(d.openReboundRatio, lv.openReboundRatio),
        takeProfitBatches := Pick(d.takeProfitBatches, lv.takeProfitBatches),
        isActive := Pick(d.isActive, lv.isActive))
  }

  /** Index of the last level with number `n`: the one the source's number-to-level dict holds. */
  function LastIndexOf(ls: seq<GridLevel>, n: int): (k: Option<nat>)
    ensures k.Some? ==> k.value < |ls| && ls[k.value].level == n && !HasLevel(ls[k.value + 1..], n)
    ensures k.None? <==> !HasLevel(ls, n)
  {
    if ls == [] then None
    else if ls[|ls| - 1].level == n then Some(|ls| - 1)
    else
      var k := LastIndexOf(ls[..|ls| - 1], n);
      assert forall j :: 0 <= j < |ls| - 1 ==> ls[..|ls| - 1][j] == ls[j];
      if k.Some? then
        assert ls[k.value + 1..] == ls[..|ls| - 1][k.value + 1..] + [ls[|ls| - 1]];
        k
      else None
  }

  /** One entry of the update, against the level numbers present before the
      update (`known`) and the levels with executors (`backed`). `None` means
      a new level lacked a required key, which aborts the update. */
  function ApplyEntry(ls: seq<GridLevel>, known: set<int>, backed: set<int>, d: LevelUpdate): Option<seq<GridLevel>>
  {
    var e := if d.level in backed then Restricted(d) else d;
    if d.level !in known then
      if Complete(e) then Some(ls + [NewLevel(e)]) else None
    else match LastIndexOf(ls, d.level)
      case None => Some(ls)
      case Some(k) => Some(ls[k := Merged(ls[k], e)])
  }

  datatype Outcome = Outcome(ok: bool, levels: seq<GridLevel>)

  /** The entries applied in order; on a failing entry, the levels as they were before it. */
  function ApplyEntries(ls: seq<GridLevel>, known: set<int>, backed: set<int>, data: seq<LevelUpdate>): Outcome
    decreases |data|
  {
    if data == [] then Outcome(true, ls)
    else match ApplyEntry(ls, known, backed, data[0])
      case None => Outcome(false, ls)
      case Some(ls') => ApplyEntries(ls', known, backed, data[1..])
  }

  /** An entry never changes a level's number or status, touches only the last
      level of its number, and on a level with an executor changes at most
      `isActive` and the take-profit batches. */
  lemma ApplyEntryEffect(ls: seq<GridLevel>, known: set<int>, backed: set<int>, d: LevelUpdate)
    requires d.level in known && HasLevel(ls, d.level)
    ensures var r := ApplyEntry(ls, known, backed, d);
      var k := LastIndexOf(ls, d.level).value;
      && r.Some? && |r.value| == |ls|
      && (forall j :: 0 <= j < |ls| && j != k ==> r.value[j] == ls[j])
      && r.value[k].level == ls[k].level && r.value[k].status == ls[k].status
      && (d.level in backed ==>
            r.value[k] == ls[k].(takeProfitBatches := Pick(d.takeProfitBatches, ls[k].takeProfitBatches),
                                 isActive := Pick(d.isActive, ls[k].isActive)))
  {
  }

  /** A complete entry for an unknown number appends exactly one level; an
      incomplete one aborts. Entries for a number with an executor can never
      create a level, since they lose the required keys. */
  lemma NewEntryEffect(ls: seq<GridLevel>, known: set<int>, backed: set<int>, d: LevelUpdate)
    requires d.level !in known
    ensures d.level in backed ==> ApplyEntry(ls, known, backed, d).None?
    ensures d.level !in backed && Complete(d) ==> ApplyEntry(ls, known, backed, d) == Some(ls + [NewLevel(d)])
    ensures d.level !in backed && !Complete(d) ==> ApplyEntry(ls, known, backed, d).None?
  {
  }

  // ---- truncation by priority ----

  /** Sort key order: active before inactive, then with executor before
      without, then lower level number first. */
  predicate PriorityLe(a: GridLevel, b: GridLevel, backed: set<int>)
  {
    if a.isActive != b.isActive then a.isActive
    else if (a.level in backed) != (b.level in backed) then a.level in backed
    else a.level <= b.level
  }

  ghost predicate SortedBy(s: seq<GridLevel>, backed: set<int>)
  {
    forall i, j :: 0 <= i < j < |s| ==> PriorityLe(s[i], s[j], backed)
  }

  function Insert(x: GridLevel, s: seq<GridLevel>, backed: set<int>): (r: seq<GridLevel>)
    ensures |r| == |s| + 1
  {
    if s == [] then [x]
    else if PriorityLe(x, s[0], backed) then [x] + s
    else [s[0]] + Insert(x, s[1..], backed)
  }

  /** A stable insertion sort: levels with equal keys keep their order. */
  function SortByPriority(s: seq<GridLevel>, backed: set<int>): (r: seq<GridLevel>)
    ensures |r| == |s|
  {
    if s == [] then [] else Insert(s[0], SortByPriority(s[1..], backed), backed)
  }

  /** The priority order is total and transitive. */
  lemma PriorityOrder(a: GridLevel, b: GridLevel, c: GridLevel, backed: set<int>)
    ensures PriorityLe(a, b, backed) || PriorityLe(b, a, backed)
    ensures PriorityLe(a, b, backed) && PriorityLe(b, c, backed) ==> PriorityLe(a, c, backed)
  {
  }

  lemma SortedCons(x: GridLevel, s: seq<GridLevel>, backed: set<int>)
    requires SortedBy(s, backed)
    requires forall j :: 0 <= j < |s| ==> PriorityLe(x, s[j], backed)
    ensures SortedBy([x] + s, backed)
  {
    var r := [x] + s;
    forall i, j | 0 <= i < j < |r|
      ensures PriorityLe(r[i], r[j], backed)
    {
      if i == 0 {
        assert r[j] == s[j - 1];
      } else {
        assert r[i] == s[i - 1] && r[j] == s[j - 1];
      }
    }
  }

  lemma SortedHeadFirst(x: GridLevel, s: seq<GridLevel>, backed: set<int>)
    requires s != [] && SortedBy(s, backed) && PriorityLe(x, s[0], backed)
    ensures forall j :: 0 <= j < |s| ==> PriorityLe(x, s[j], backed)
  {
    forall j | 0 <= j < |s|
      ensures PriorityLe(x, s[j], backed)
    {
      PriorityOrder(x, s[0], s[j], backed);
    }
  }

  lemma InsertedBelowHead(x: GridLevel, s: seq<GridLevel>, t: seq<GridLevel>, backed: set<int>)
    requires s != [] && SortedBy(s, backed) && !PriorityLe(x, s[0], backed)
    requires multiset(t) == multiset(s[1..]) + multiset{x}
    ensures forall j :: 0 <= j < |t| ==> PriorityLe(s[0], t[j], backed)
  {
    forall j | 0 <= j < |t|
      ensures PriorityLe(s[0], t[j], backed)
    {
      assert t[j] in multiset(t);
      if t[j] == x {
        PriorityOrder(x, s[0], x, backed);
      } else {
        assert t[j] in multiset(s[1..]);
        var k :| 0 <= k < |s[1..]| && s[1..][k] == t[j];
        assert s[k + 1] == t[j];
      }
    }
  }

  lemma {:induction false} InsertSorted(x: GridLevel, s: seq<GridLevel>, backed: set<int>)
    requires SortedBy(s, backed)
    ensures multiset(Insert(x, s, backed)) == multiset(s) + multiset{x}
    ensures SortedBy(Insert(x, s, backed), backed)
  {
    if s == [] {
    } else if PriorityLe(x, s[0], backed) {
      SortedHeadFirst(x, s, backed);
      SortedCons(x, s, backed);
    } else {
      assert SortedBy(s[1..], backed);
      InsertSorted(x, s[1..], backed);
      var t := Insert(x, s[1..], backed);
      assert s == [s[0]] + s[1..];
      InsertedBelowHead(x, s, t, backed);
      SortedCons(s[0], t, backed);
    }
  }

  /** The sort returns a permutation of its input in priority order. */
  lemma {:induction false} SortByPriorityCorrect(s: seq<GridLevel>, backed: set<int>)
    ensures multiset(SortByPriority(s, backed)) == multiset(s)
    ensures SortedBy(SortByPriority(s, backed), backed)
  {
    if s != [] {
      SortByPriorityCorrect(s[1..], backed);
      InsertSorted(s[0], SortByPriority(s[1..], backed), backed);
      assert s == [s[0]] + s[1..];
    }
  }

  /** Over the maximum, the levels are sorted by priority and cut with
      Python's `[:max]` (a negative maximum drops from the end). */
  function Truncated(ls: seq<GridLevel>, backed: set<int>, max: int): seq<GridLevel>
  {
    if |ls| > max then PySlice(SortByPriority(ls, backed), 0, max) else ls
  }

  /** With a non-negative maximum at most `max` levels remain; when levels are
      cut, the kept ones are in priority order and each outranks every dropped
      one, and nothing is invented. */
  lemma TruncatedBest(ls: seq<GridLevel>, backed: set<int>, max: int)
    requires max >= 0
    ensures |Truncated(ls, backed, max)| <= max || Truncated(ls, backed, max) == ls
    ensures |ls| <= max ==> Truncated(ls, backed, max) == ls
    ensures |ls| > max ==>
      var sorted := SortByPriority(ls, backed);
      && Truncated(ls, backed, max) == sorted[..max]
      && |Truncated(ls, backed, max)| == max
      && SortedBy(Truncated(ls, backed, max), backed)
      && multiset(Truncated(ls, backed, max)) <= multiset(ls)
      && (forall i, j :: 0 <= i < max <= j < |sorted| ==> PriorityLe(sorted[i], sorted[j], backed))
  {
    if |ls| > max {
      SortByPriorityCorrect(ls, backed);
      var sorted := SortByPriority(ls, backed);
      assert |sorted| == |ls| by { assert |multiset(sorted)| == |multiset(ls)|; }
      assert sorted == sorted[..max] + sorted[max..];
      assert multiset(sorted) == multiset(sorted[..max]) + multiset(sorted[max..]);
    }
  }

  /** The whole update of the level list: prune, apply the entries, truncate.
      On failure, the levels as far as the update got. */
  function UpdatedLevels(ls: seq<GridLevel>, backed: set<int>, data: seq<LevelUpdate>, max: int): Outcome
  {
    var known := set k | 0 <= k < |ls| :: ls[k].level;
    var o := ApplyEntries(Pruned(ls, UpdateIds(data), backed), known, backed, data);
    if o.ok then Outcome(true, Truncated(o.levels, backed, max)) else o
  }
}
