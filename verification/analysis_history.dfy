/** The client-side history of single-image analyses
    (Frontend/src/hooks/useAnalysisHistory.ts): newest first, at most twenty
    entries, mirrored in the browser's local storage under one key. Storage
    maps keys to what they hold: a JSON list of results, or text that is not
    one. */
module AnalysisHistory {
  import opened AnalysisTypes

  const StorageKey: string := "tfg-analysis-history"
  const MaxHistoryItems: nat := 20

  function Min(a: int, b: int): int { if a < b then a else b }

  function Max(a: int, b: int): int { if a < b then b else a }

  /** `[result, ...prev].slice(0, MAX_HISTORY_ITEMS)`. */
  function Updated(prev: seq<AnalysisResult>, result: AnalysisResult): (u: seq<AnalysisResult>)
    ensures |u| == Min(|prev| + 1, MaxHistoryItems) && 1 <= |u| <= MaxHistoryItems
    ensures u[0] == result
    ensures u[1..] == prev[..Min(|prev|, MaxHistoryItems - 1)]
  {
    ([result] + prev)[..Min(MaxHistoryItems, |prev| + 1)]
  }

  function Reversed(s: seq<AnalysisResult>): (r: seq<AnalysisResult>)
    ensures |r| == |s|
    decreases |s|
  {
    if |s| == 0 then [] else [s[|s| - 1]] + Reversed(s[..|s| - 1])
  }

  /** The first `MaxHistoryItems` entries. */
  function Capped(s: seq<AnalysisResult>): seq<AnalysisResult>
  {
    s[..Min(|s|, MaxHistoryItems)]
  }

  /** Adding the results one after another. */
  function AddAll(prev: seq<AnalysisResult>, results: seq<AnalysisResult>): (h: seq<AnalysisResult>)
    ensures |h| <= Max(|prev|, MaxHistoryItems)
    ensures |results| > 0 ==> |h| > 0 && h[0] == results[|results| - 1]
    decreases |results|
  {
    if |results| == 0 then prev
    else Updated(AddAll(prev, results[..|results| - 1]), results[|results| - 1])
  }

  /** After a series of additions the history is the newest twenty of all
      results ever added, newest first. */
  lemma {:induction false} AddAllNewestFirst(prev: seq<AnalysisResult>, results: seq<AnalysisResult>)
    requires |prev| <= MaxHistoryItems
    ensures AddAll(prev, results) == Capped(Reversed(results) + prev)
    decreases |results|
  {
    if |results| == 0 {
      assert Reversed(results) + prev == prev;
    } else {
      var n := |results| - 1;
      AddAllNewestFirst(prev, results[..n]);
      var all := Reversed(results[..n]) + prev;
      assert Reversed(results) + prev == [results[n]] + all;
      assert ([results[n]] + Capped(all))[..Min(MaxHistoryItems, |Capped(all)| + 1)]
          == ([results[n]] + all)[..Min(|all| + 1, MaxHistoryItems)];
    }
  }

  datatype Stored = Json(items: seq<AnalysisResult>) | Corrupt(text: string)

  /** What the mount effect does with the storage: a stored list replaces
      the history; a missing key, an empty string or text that does not
      parse leaves it as it was. */
  function Loaded(storage: map<string, Stored>, current: seq<AnalysisResult>): (h: seq<AnalysisResult>)
    ensures StorageKey !in storage ==> h == current
    ensures StorageKey in storage && storage[StorageKey].Corrupt? ==> h == current
    ensures StorageKey in storage && storage[StorageKey].Json? ==> h == storage[StorageKey].items
  {
    if StorageKey in storage && storage[StorageKey].Json? then storage[StorageKey].items else current
  }

  /** What an addition writes is what a later load reads back; after a
      clear, a load leaves the emptied history empty. */
  lemma StorageRoundTrip(storage: map<string, Stored>, h: seq<AnalysisResult>, any: seq<AnalysisResult>)
    ensures Loaded(storage[StorageKey := Json(h)], any) == h
    ensures Loaded(storage - {StorageKey}, []) == []
  {
  }

  /** The hook's state cell and the browser storage it writes. */
  class HistoryHook {
    var history: seq<AnalysisResult>
    var storage: map<string, Stored>

    /** The first render: an empty history over whatever is stored. */
    constructor (storage: map<string, Stored>)
      ensures history == [] && this.storage == storage
    {
      history := [];
      this.storage := storage;
    }

    /** The mount effect. */
    method Load()
      modifies this
      ensures storage == old(storage)
      ensures history == Loaded(storage, old(history))
    {
      if StorageKey in storage {
        var stored := storage[StorageKey];
        if stored.Json? {
          history := stored.items;
        }
      }
    }

    /** `addToHistory`: the new list becomes the state and is written to
        storage. */
    method AddToHistory(result: AnalysisResult)
      modifies this
      ensures history == Updated(old(history), result)
      ensures storage == old(storage)[StorageKey := Json(history)]
    {
      var updated := ([result] + history)[..Min(MaxHistoryItems, |history| + 1)];
      storage := storage[StorageKey := Json(updated)];
      history := updated;
    }

    /** `clearHistory`: empties the list and removes the key. */
    method ClearHistory()
      modifies this
      ensures history == [] && storage == old(storage) - {StorageKey}
    {
      history := [];
      storage := storage - {StorageKey};
    }
  }
}
