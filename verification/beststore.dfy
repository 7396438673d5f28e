/** The three quiz modes and the device-local best time kept for each of them. The browser's
    key-value storage is modelled by a map from mode to record; its key strings are
    `"elemquiz_best_v1_" + mode`. */
module BestStore {
  import opened Util

  datatype Mode = AtomicNumber | ElementName | PeriodicTable

  /** The identifier of a mode, as stored and as used in the storage key. */
  function ModeId(m: Mode): string {
    match m
    case AtomicNumber => "atomic_number"
    case ElementName => "element_name"
    case PeriodicTable => "periodic_table"
  }

  const KeyPrefix: string := "elemquiz_best_v1_"

  function BestStorageKey(m: Mode): (key: string)
    ensures |key| > |KeyPrefix| && key[..|KeyPrefix|] == KeyPrefix
  {
    KeyPrefix + ModeId(m)
  }

  /** Each mode has its own storage entry. */
  lemma StorageKeysDistinct(m1: Mode, m2: Mode)
    requires m1 != m2
    ensures BestStorageKey(m1) != BestStorageKey(m2)
  {
    var k1 := BestStorageKey(m1);
    var k2 := BestStorageKey(m2);
    assert k1[|KeyPrefix|] == ModeId(m1)[0];
    assert k2[|KeyPrefix|] == ModeId(m2)[0];
    if m1 != PeriodicTable && m2 != PeriodicTable {
      assert k1[|KeyPrefix| + 1] == ModeId(m1)[1];
      assert k2[|KeyPrefix| + 1] == ModeId(m2)[1];
    }
  }

  /** A stored best: the time in seconds and, when the entry has one, the wall-clock
      milliseconds at which it was written. */
  datatype BestRecord = BestRecord(sec: real, at: Option<int>)

  type Store = map<Mode, BestRecord>

  /** The best of `m`, or none when nothing usable is stored. */
  function ReadBest(store: Store, m: Mode): (r: Option<BestRecord>)
    ensures r.Some? <==> m in store
    ensures r.Some? ==> r.value == store[m]
  {
    if m in store then Some(store[m]) else None
  }

  /** Stores `sec` as the best of `m`, stamped with the wall clock `nowMs`. */
  function WriteBest(store: Store, m: Mode, sec: real, nowMs: int): (r: Store)
    ensures ReadBest(r, m) == Some(BestRecord(sec, Some(nowMs)))
    ensures forall other :: other != m ==> ReadBest(r, other) == ReadBest(store, other)
  {
    store[m := BestRecord(sec, Some(nowMs))]
  }

  /** Removes the best of every mode. */
  function ClearAll(store: Store): (r: Store)
    ensures ReadBest(r, AtomicNumber) == None
    ensures ReadBest(r, ElementName) == None
    ensures ReadBest(r, PeriodicTable) == None
  {
    store - {AtomicNumber, ElementName, PeriodicTable}
  }
}
