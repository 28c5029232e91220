/**
 * The analysis history: one row per saved run in a table whose primary key
 * is an auto-incremented id. The table is modelled as the sequence of its
 * rows in insertion order; sqlite itself and the JSON encoding are not.
 */
module Database {
  import opened Wrappers
  import opened AnalysisCore
  import Config

  /** A stored run; `timestamp` in the query results is the end time. */
  datatype Record = Record(
    id: nat,
    startTime: real,
    endTime: real,
    duration: real,
    results: seq<ResultItem>,
    symbolCount: nat,
    config: Option<map<string, Config.Value>>)

  /** What may be handed to `save_analysis`: a run's bundle, or (the older format) a bare list of results. */
  datatype AnalysisData = BundleData(bundle: ResultBundle) | BareList(results: seq<ResultItem>)

  /** One line of the history list. */
  datatype HistoryEntry = HistoryEntry(id: nat, timestamp: real, symbolCount: nat, duration: real)

  /** The row `save_analysis` inserts under `id`; a bare list is timestamped `now` with duration 0; an empty config is stored as NULL. */
  function NewRecord(id: nat, data: AnalysisData, config: Option<map<string, Config.Value>>, now: real): (r: Record)
    ensures r.id == id
    ensures r.symbolCount == |r.results|
    ensures data.BareList? ==> r.results == data.results && r.startTime == r.endTime == now && r.duration == 0.0
    ensures data.BundleData? ==>
      && r.results == data.bundle.results
      && (r.startTime, r.endTime, r.duration) == (data.bundle.startTime, data.bundle.endTime, data.bundle.duration)
    ensures r.config.Some? <==> config.Some? && config.value != map[]
  {
    var stored := if config.Some? && config.value != map[] then config else None;
    match data
    case BundleData(b) => Record(id, b.startTime, b.endTime, b.duration, b.results, |b.results|, stored)
    case BareList(rs) => Record(id, now, now, 0.0, rs, |rs|, stored)
  }

  /** How many rows `LIMIT limit` lets through out of `n`: a negative limit means no limit. */
  function LimitCount(n: nat, limit: int): (k: nat)
    ensures k <= n
    ensures limit >= 0 ==> k <= limit
    ensures limit < 0 || n <= limit ==> k == n
    ensures 0 <= limit < n ==> k == limit
  {
    if limit < 0 || n <= limit then n else limit
  }

  predicate IdsIncreasing(rs: seq<Record>)
  {
    forall i, j :: 0 <= i < j < |rs| ==> rs[i].id < rs[j].id
  }

  /** The rows with the `keep` largest ids, in table order. */
  function KeepNewest(rs: seq<Record>, keep: int): (r: seq<Record>)
    ensures |r| == LimitCount(|rs|, keep)
  {
    rs[|rs| - LimitCount(|rs|, keep)..]
  }

  /**
   * `delete_old_records` keeps exactly `min(keep, total)` rows, and every
   * row it deletes has a smaller id than every row it keeps.
   */
  lemma KeepNewestSpec(rs: seq<Record>, keep: int)
    requires IdsIncreasing(rs)
    ensures var kept := KeepNewest(rs, keep);
      && (forall r :: r in kept ==> r in rs)
      && IdsIncreasing(kept)
      && (forall i, r :: 0 <= i < |rs| && rs[i] !in kept && r in kept ==> rs[i].id < r.id)
  {
    var kept := KeepNewest(rs, keep);
    var start := |rs| - |kept|;
    assert forall k :: start <= k < |rs| ==> rs[k] == kept[k - start];
    forall i, r | 0 <= i < |rs| && rs[i] !in kept && r in kept ensures rs[i].id < r.id {
      var j :| 0 <= j < |kept| && kept[j] == r;
      assert rs[start + j] == r;
    }
  }

  function SymbolSet(rs: seq<ResultItem>): (s: set<string>)
    ensures forall x :: x in s <==> exists i :: 0 <= i < |rs| && rs[i].symbol == x
  {
    set i | 0 <= i < |rs| :: rs[i].symbol
  }

  /** The output of `compare_results`; the source returns each set as a list in set-iteration order. */
  datatype Comparison = Comparison(added: set<string>, removed: set<string>, common: set<string>, hasChanges: bool)

  /** Compare the symbols of the previous run with those of the current one. */
  function CompareResults(previous: seq<ResultItem>, current: seq<ResultItem>): (c: Comparison)
    ensures forall x :: x in c.added <==> x in SymbolSet(current) && x !in SymbolSet(previous)
    ensures forall x :: x in c.removed <==> x in SymbolSet(previous) && x !in SymbolSet(current)
    ensures forall x :: x in c.common <==> x in SymbolSet(previous) && x in SymbolSet(current)
    ensures c.hasChanges <==> c.added != {} || c.removed != {}
  {
    var before, after := SymbolSet(previous), SymbolSet(current);
    var added, removed := after - before, before - after;
    Comparison(added, removed, before * after, |added| > 0 || |removed| > 0)
  }

  /**
   * The three parts are pairwise disjoint and together make up every symbol
   * of either run; a change is reported exactly when the two symbol sets differ.
   */
  lemma CompareResultsPartition(previous: seq<ResultItem>, current: seq<ResultItem>)
    ensures var c := CompareResults(previous, current);
      && c.added !! c.removed && c.added !! c.common && c.removed !! c.common
      && c.added + c.removed + c.common == SymbolSet(previous) + SymbolSet(current)
      && (c.hasChanges <==> SymbolSet(previous) != SymbolSet(current))
  {
    var before, after := SymbolSet(previous), SymbolSet(current);
    SymbolSetPartition(before, after);
  }

  lemma SymbolSetPartition(before: set<string>, after: set<string>)
    ensures (after - before) !! (before - after) && (after - before) !! (before * after) && (before - after) !! (before * after)
    ensures (after - before) + (before - after) + (before * after) == before + after
    ensures (|after - before| > 0 || |before - after| > 0) <==> before != after
  {
    if after - before == {} && before - after == {} {
      assert forall x :: x in before <==> x in after;
    }
  }

  /** The table, with the counter behind its auto-incremented ids. */
  class HistoryStore {
    var records: seq<Record>
    /** The id the next insert receives: one past every id ever issued. */
    var nextId: nat

    ghost predicate Valid()
      reads this
    {
      && IdsIncreasing(records)
      && (forall r :: r in records ==> 1 <= r.id < nextId)
      && nextId >= 1
    }

    constructor ()
      ensures Valid() && records == [] && nextId == 1
    {
      records := [];
      nextId := 1;
    }

    /**
     * `save_analysis`: insert one row and return its id; when the database
     * write fails (`writeOk` false) return `None` and leave the table as it was.
     */
    method SaveAnalysis(data: AnalysisData, config: Option<map<string, Config.Value>>, now: real, writeOk: bool)
      returns (id: Option<nat>)
      requires Valid()
      modifies this
      ensures Valid()
      ensures writeOk ==>
        && id == Some(old(nextId))
        && records == old(records) + [NewRecord(old(nextId), data, config, now)]
        && nextId == old(nextId) + 1
      ensures !writeOk ==> id == None && records == old(records) && nextId == old(nextId)
    {
      if !writeOk {
        return None;
      }
      var row := NewRecord(nextId, data, config, now);
      records := records + [row];
      id := Some(nextId);
      nextId := nextId + 1;
    }

    /** `get_latest_analysis`: the row with the largest id, or `None` for an empty table. */
    function Latest(): (r: Option<Record>)
      reads this
      requires Valid()
      ensures r.None? <==> records == []
      ensures r.Some? ==> r.value in records && forall x :: x in records ==> x.id <= r.value.id
    {
      if records == [] then None else Some(records[|records| - 1])
    }

    /** `get_history_list`: the newest `limit` rows (all of them for a negative limit), newest first. */
    function HistoryList(limit: int): (r: seq<HistoryEntry>)
      reads this
      requires Valid()
      ensures |r| == LimitCount(|records|, limit)
      ensures forall i, j :: 0 <= i < j < |r| ==> r[i].id > r[j].id
      ensures forall i :: 0 <= i < |r| ==> r[i] == Entry(records[|records| - 1 - i])
      ensures forall x, i :: x in records[..|records| - |r|] && 0 <= i < |r| ==> x.id < r[i].id
    {
      NewestFirst(records, limit)
    }

    /** `get_analysis_by_id`: the row with that id, or `None` when there is none. */
    function ById(id: int): (r: Option<Record>)
      reads this
      requires Valid()
      ensures r.Some? <==> exists x :: x in records && x.id == id
      ensures r.Some? ==> r.value in records && r.value.id == id
    {
      FindId(records, id)
    }

    /**
     * `delete_old_records`: keep the `keep` rows with the largest ids and
     * return how many rows went; a failed write deletes nothing and returns 0.
     */
    method DeleteOldRecords(keep: int, writeOk: bool) returns (deleted: nat)
      requires Valid()
      modifies this`records
      ensures Valid()
      ensures writeOk ==> records == KeepNewest(old(records), keep) && deleted == |old(records)| - |records|
      ensures !writeOk ==> records == old(records) && deleted == 0
    {
      if !writeOk {
        return 0;
      }
      var before := |records|;
      KeepNewestSpec(records, keep);
      records := KeepNewest(records, keep);
      deleted := before - |records|;
    }
  }

  function Entry(x: Record): HistoryEntry
  {
    HistoryEntry(x.id, x.endTime, x.symbolCount, x.duration)
  }

  /** The history lines of the last `LimitCount(|rs|, limit)` rows, last row first. */
  function NewestFirst(rs: seq<Record>, limit: int): (r: seq<HistoryEntry>)
    requires IdsIncreasing(rs)
    ensures |r| == LimitCount(|rs|, limit)
    ensures forall i, j :: 0 <= i < j < |r| ==> r[i].id > r[j].id
    ensures forall i :: 0 <= i < |r| ==> r[i] == Entry(rs[|rs| - 1 - i])
    ensures forall x, i :: x in rs[..|rs| - |r|] && 0 <= i < |r| ==> x.id < r[i].id
  {
    var k := LimitCount(|rs|, limit);
    var r := seq(k, i requires 0 <= i < k => Entry(rs[|rs| - 1 - i]));
    NewestFirstSpec(rs, k, r);
    r
  }

  lemma NewestFirstSpec(rs: seq<Record>, k: nat, r: seq<HistoryEntry>)
    requires IdsIncreasing(rs) && k <= |rs|
    requires |r| == k && forall i :: 0 <= i < k ==> r[i] == Entry(rs[|rs| - 1 - i])
    ensures forall i, j :: 0 <= i < j < |r| ==> r[i].id > r[j].id
    ensures forall x, i :: x in rs[..|rs| - |r|] && 0 <= i < |r| ==> x.id < r[i].id
  {
    var n := |rs|;
    forall x, i | x in rs[..n - k] && 0 <= i < |r| ensures x.id < r[i].id {
      var m :| 0 <= m < n - k && rs[..n - k][m] == x;
      assert rs[m] == x && m < n - 1 - i;
    }
  }

  function FindId(rs: seq<Record>, id: int): (r: Option<Record>)
    ensures r.Some? <==> exists x :: x in rs && x.id == id
    ensures r.Some? ==> r.value in rs && r.value.id == id
  {
    if rs == [] then None
    else if rs[0].id == id then Some(rs[0])
    else
      var rest := FindId(rs[1..], id);
      assert forall x :: x in rs[1..] ==> x in rs;
      assert forall x :: x in rs && x != rs[0] ==> x in rs[1..];
      rest
  }

  /** In a table with increasing ids, a lookup by id finds the only row with that id. */
  lemma ByIdUnique(rs: seq<Record>, id: int, x: Record)
    requires IdsIncreasing(rs) && x in rs && x.id == id
    ensures FindId(rs, id) == Some(x)
  {
    var y := FindId(rs, id).value;
    var i :| 0 <= i < |rs| && rs[i] == x;
    var j :| 0 <= j < |rs| && rs[j] == y;
    assert !(i < j) && !(j < i);
  }

  /**
   * Appending a row whose id exceeds every stored id keeps the ids
   * increasing, makes it the latest row, and a lookup by its id finds it.
   */
  lemma SaveThenLatest(before: seq<Record>, row: Record)
    requires IdsIncreasing(before) && forall x :: x in before ==> x.id < row.id
    ensures IdsIncreasing(before + [row])
    ensures (before + [row])[|before + [row]| - 1] == row
    ensures FindId(before + [row], row.id) == Some(row)
  {
    var after := before + [row];
    assert forall i :: 0 <= i < |before| ==> after[i] in before;
    ByIdUnique(after, row.id, row);
  }
}
