/** The storage guardian of src/utils/storage-manager.ts: a usage snapshot computed
    from the platform's estimate, a three-tier pressure classification, and the soft
    and emergency cleanup tiers over the browser's four stores. */
module StorageManager {
  import opened Wrappers
  import opened Seqs
  import opened JsObjects

  // ---------------------------------------------------------------------------
  // Snapshot
  // ---------------------------------------------------------------------------

  /** What the platform's storage estimate yields: no estimation capability, a failed
      query, or a reply whose `quota` and `usage` fields may each be missing. */
  datatype Estimate = Unsupported | Failed | Estimated(quota: Option<nat>, usage: Option<nat>)

  /** A point-in-time usage snapshot. `available` may be negative when usage exceeds quota. */
  datatype StorageInfo = StorageInfo(used: int, available: int, quota: int, percentage: real)

  /** The snapshot for an estimate; missing fields count as 0, and a zero quota gives
      a percentage of exactly 0. No snapshot without a successful estimate. */
  function GetStorageInfo(e: Estimate): (r: Option<StorageInfo>)
    ensures r.None? <==> !e.Estimated?
    ensures r.Some? ==> r.value.used == e.usage.GetOr(0) && r.value.quota == e.quota.GetOr(0)
    ensures r.Some? ==> r.value.available == r.value.quota - r.value.used
    ensures r.Some? && r.value.quota > 0 ==>
              r.value.percentage * r.value.quota as real == 100.0 * r.value.used as real
    ensures r.Some? && r.value.quota == 0 ==> r.value.percentage == 0.0
  {
    match e
    case Estimated(q, u) =>
      var quota := q.GetOr(0);
      var usage := u.GetOr(0);
      var percentage := if quota > 0 then (usage as real / quota as real) * 100.0 else 0.0;
      Some(StorageInfo(usage, quota - usage, quota, percentage))
    case _ => None
  }

  /** The percentage is never negative, and it stays within 100 while usage is within quota. */
  lemma PercentageRange(e: Estimate)
    requires e.Estimated?
    ensures GetStorageInfo(e).value.percentage >= 0.0
    ensures e.usage.GetOr(0) <= e.quota.GetOr(0) ==> GetStorageInfo(e).value.percentage <= 100.0
  {
  }

  // ---------------------------------------------------------------------------
  // Low-space queries and pressure classification
  // ---------------------------------------------------------------------------

  const DefaultLowSpaceThreshold: real := 90.0

  /** `isLowSpace(threshold)`: false without a snapshot, else a strict comparison. */
  predicate IsLowSpace(e: Estimate, threshold: real)
  {
    match GetStorageInfo(e)
    case None => false
    case Some(info) => info.percentage > threshold
  }

  /** `isStorageFull()`, written out separately as the source does, with its own 90. */
  predicate IsStorageFull(e: Estimate)
  {
    var info := GetStorageInfo(e);
    if info.Some? then info.value.percentage > 90.0 else false
  }

  /** `isStorageFull()` is `isLowSpace()` at its default threshold. */
  lemma StorageFullIsDefaultLowSpace(e: Estimate)
    ensures IsStorageFull(e) == IsLowSpace(e, DefaultLowSpaceThreshold)
  {
  }

  /** Lowering the threshold can only turn a low-space answer from false to true. */
  lemma LowSpaceMonotone(e: Estimate, t: real, t': real)
    requires t' <= t
    ensures IsLowSpace(e, t) ==> IsLowSpace(e, t')
  {
  }

  /** The low-space answer in terms of the raw estimate, without a division:
      `usage * 100 > threshold * quota` for a positive quota; for a zero quota the
      percentage is 0, so only a negative threshold is exceeded. */
  lemma LowSpaceFromEstimate(e: Estimate, t: real)
    ensures IsLowSpace(e, t) <==>
              e.Estimated? &&
              var q, u := e.quota.GetOr(0) as real, e.usage.GetOr(0) as real;
              if q > 0.0 then 100.0 * u > t * q else 0.0 > t
  {
  }

  /** The pressure tiers of `monitorStorage`. */
  datatype Pressure = Normal | High | Critical

  /** The tier of a percentage: strictly above 95 is critical, strictly above 80 high. */
  function Classify(percentage: real): Pressure
  {
    if percentage > 95.0 then Critical
    else if percentage > 80.0 then High
    else Normal
  }

  function Rank(p: Pressure): nat
  {
    match p
    case Normal => 0
    case High => 1
    case Critical => 2
  }

  /** Each tier is exactly an interval of percentages, with the boundaries 80 and 95
      belonging to the lower tier. */
  lemma ClassifyIntervals(p: real)
    ensures Classify(p) == Normal <==> p <= 80.0
    ensures Classify(p) == High <==> 80.0 < p <= 95.0
    ensures Classify(p) == Critical <==> 95.0 < p
  {
  }

  /** The boundary cases: exactly 80 is informational, exactly 95 is a warning. */
  lemma ClassifyBoundaries()
    ensures Classify(80.0) == Normal && Classify(80.01) == High
    ensures Classify(95.0) == High && Classify(95.01) == Critical
  {
  }

  /** More usage never means a lower tier. */
  lemma ClassifyMonotone(p: real, q: real)
    requires p <= q
    ensures Rank(Classify(p)) <= Rank(Classify(q))
  {
  }

  /** The tier `monitorStorage` acts on, if there is a snapshot. */
  function MonitorLevel(e: Estimate): (r: Option<Pressure>)
    ensures r.None? <==> GetStorageInfo(e).None?
  {
    match GetStorageInfo(e)
    case None => None
    case Some(info) => Some(Classify(info.percentage))
  }

  /** A critical reading is also "storage full", and "storage full" is at least high. */
  lemma TiersAgreeWithStorageFull(e: Estimate)
    ensures MonitorLevel(e) == Some(Critical) ==> IsStorageFull(e)
    ensures IsStorageFull(e) ==> MonitorLevel(e) in {Some(High), Some(Critical)}
  {
  }

  /** Two readings of a 1000-byte quota: half full is normal, 960 bytes is critical. */
  lemma MonitorScenarios()
    ensures GetStorageInfo(Estimated(Some(1000), Some(500))).value.percentage == 50.0
    ensures MonitorLevel(Estimated(Some(1000), Some(500))) == Some(Normal)
    ensures GetStorageInfo(Estimated(Some(1000), Some(960))).value.percentage == 96.0
    ensures MonitorLevel(Estimated(Some(1000), Some(960))) == Some(Critical)
    ensures MonitorLevel(Unsupported) == None && MonitorLevel(Failed) == None
  {
  }

  // ---------------------------------------------------------------------------
  // formatBytes: the zero case and the unit index (the number itself is
  // floating-point text rendering and is not modelled)
  // ---------------------------------------------------------------------------

  function Pow1024(n: nat): (r: nat)
    ensures r >= 1
  {
    if n == 0 then 1 else 1024 * Pow1024(n - 1)
  }

  /** `Math.floor(log_1024(bytes))` in exact arithmetic: the `i` that brackets `bytes`. */
  function UnitIndex(bytes: nat): (i: nat)
    requires bytes > 0
    ensures Pow1024(i) <= bytes < Pow1024(i + 1)
  {
    if bytes < 1024 then 0 else 1 + UnitIndex(bytes / 1024)
  }

  const Sizes: seq<string> := ["B", "KB", "MB", "GB", "TB"]

  /** The unit of `formatBytes(bytes)` as the source computes it: `"0 B"` for zero,
      otherwise `sizes[i]`, which is `undefined` (None) past the last entry. */
  function UnitAsWritten(bytes: nat): Option<string>
  {
    if bytes == 0 then Some("B")
    else
      var i := UnitIndex(bytes);
      if i < |Sizes| then Some(Sizes[i]) else None
  }

  /** From 1024^5 bytes on, the source's unit lookup runs off the end of `sizes`. */
  lemma UnitAsWrittenUndefined(bytes: nat)
    requires bytes >= Pow1024(5)
    ensures UnitAsWritten(bytes) == None
  {
  }

  /** The unit with the index clamped to the last entry, so it is always a unit name. */
  function Unit(bytes: nat): (u: string)
    ensures u in Sizes
    ensures bytes == 0 ==> u == "B"
    ensures forall i :: 0 <= i < |Sizes| - 1 && Pow1024(i) <= bytes < Pow1024(i + 1) ==> u == Sizes[i]
    ensures bytes >= Pow1024(|Sizes| - 1) ==> u == "TB"
  {
    if bytes == 0 then "B"
    else
      var i := UnitIndex(bytes);
      UnitIndexUnique(bytes);
      Sizes[if i < |Sizes| then i else |Sizes| - 1]
  }

  /** The bracketing index is unique: every `j` with `1024^j <= bytes` is at most
      `UnitIndex(bytes)`, and the only `j` that brackets `bytes` is `UnitIndex(bytes)`. */
  lemma UnitIndexUnique(bytes: nat)
    requires bytes > 0
    ensures forall j: nat :: Pow1024(j) <= bytes ==> j <= UnitIndex(bytes)
    ensures forall j: nat :: Pow1024(j) <= bytes < Pow1024(j + 1) ==> j == UnitIndex(bytes)
  {
    var i := UnitIndex(bytes);
    forall j: nat | Pow1024(j) <= bytes
      ensures j <= i
    {
      if j > i {
        PowMonotone(i + 1, j);
      }
    }
    forall j: nat | Pow1024(j) <= bytes < Pow1024(j + 1)
      ensures j == i
    {
      if j < i {
        PowMonotone(j + 1, i);
      }
    }
  }

  /** Below 1024^5 bytes the clamped unit is the source's unit. */
  lemma UnitAgreesBelowPetabyte(bytes: nat)
    requires bytes < Pow1024(5)
    ensures UnitAsWritten(bytes) == Some(Unit(bytes))
  {
    if bytes > 0 {
      var i := UnitIndex(bytes);
      if i >= 5 {
        PowMonotone(5, i);
      }
    }
  }

  /** The examples `formatBytes(0) == "0 B"` and `formatBytes(1536) == "1.5 KB"`, unit part. */
  lemma UnitExamples()
    ensures Unit(0) == "B" && Unit(1536) == "KB" && Unit(1023) == "B" && Unit(1024) == "KB"
  {
  }

  lemma {:induction false} PowMonotone(m: nat, n: nat)
    requires m <= n
    ensures Pow1024(m) <= Pow1024(n)
    decreases n
  {
    if m < n {
      PowMonotone(m, n - 1);
    }
  }

  // ---------------------------------------------------------------------------
  // Cleanup policy on values
  // ---------------------------------------------------------------------------

  const AdminSessionKey: string := "admin_session"

  /** The keys soft cleanup keeps in the key-value store. */
  const SoftKeepKeys: set<string> := {"admin_session", "language", "theme"}

  /** The keys emergency cleanup keeps in the key-value store. */
  const EmergencyKeepKeys: set<string> := {AdminSessionKey}

  /** The key-value store restricted to the keys in `keep`, values unchanged. */
  function Retain(m: map<string, string>, keep: set<string>): (r: map<string, string>)
    ensures r.Keys == m.Keys * keep
    ensures forall k :: k in r ==> r[k] == m[k]
  {
    map k | k in m && k in keep :: m[k]
  }

  /** What soft cleanup leaves of the key-value store. */
  function SoftRetain(m: map<string, string>): map<string, string>
  {
    Retain(m, SoftKeepKeys)
  }

  /** What emergency cleanup leaves of the key-value store. */
  function EmergencyRetain(m: map<string, string>): map<string, string>
  {
    Retain(m, EmergencyKeepKeys)
  }

  /** Soft cleanup keeps every protected key that was present, with its value, and
      removes every other key. */
  lemma SoftRetainKeepsProtected(m: map<string, string>)
    ensures forall k :: k in SoftKeepKeys && k in m ==> k in SoftRetain(m) && SoftRetain(m)[k] == m[k]
    ensures forall k :: k !in SoftKeepKeys ==> k !in SoftRetain(m)
  {
  }

  /** Soft cleanup applied twice is soft cleanup applied once. */
  lemma SoftRetainIdempotent(m: map<string, string>)
    ensures SoftRetain(SoftRetain(m)) == SoftRetain(m)
  {
  }

  /** Emergency cleanup leaves at most the session key, and what it leaves is a part
      of what soft cleanup leaves; soft cleanup after emergency cleanup changes nothing,
      and emergency cleanup after soft cleanup is emergency cleanup. */
  lemma EmergencyWithinSoft(m: map<string, string>)
    ensures EmergencyRetain(m).Keys <= {AdminSessionKey}
    ensures EmergencyRetain(m).Keys <= SoftRetain(m).Keys
    ensures forall k :: k in EmergencyRetain(m) ==> EmergencyRetain(m)[k] == SoftRetain(m)[k]
    ensures SoftRetain(EmergencyRetain(m)) == EmergencyRetain(m)
    ensures EmergencyRetain(SoftRetain(m)) == EmergencyRetain(m)
  {
  }

  /** The store of the end-to-end example: four keys, one of them scratch data. */
  lemma CleanupScenarios()
    ensures var m := map["admin_session" := "x", "language" := "cs", "theme" := "dark", "scratch" := "y"];
            SoftRetain(m) == map["admin_session" := "x", "language" := "cs", "theme" := "dark"] &&
            EmergencyRetain(m) == map["admin_session" := "x"]
  {
  }

  /** The key-value store as `clearCaches` actually leaves it: its collection loop tests
      `key && ...`, and the empty string is falsy, so a key `""` is never collected. */
  function SoftRetainAsWritten(m: map<string, string>): map<string, string>
  {
    Retain(m, SoftKeepKeys + {""})
  }

  /** What `clearCaches` as written promises: every protected key that was present
      stays with its value, every other non-empty key goes, a second run changes
      nothing, and emergency cleanup keeps a part of what it keeps. */
  lemma SoftRetainAsWrittenPolicy(m: map<string, string>)
    ensures forall k :: k in SoftKeepKeys && k in m ==> k in SoftRetainAsWritten(m) && SoftRetainAsWritten(m)[k] == m[k]
    ensures forall k :: k != "" && k !in SoftKeepKeys ==> k !in SoftRetainAsWritten(m)
    ensures SoftRetainAsWritten(SoftRetainAsWritten(m)) == SoftRetainAsWritten(m)
    ensures EmergencyRetain(m).Keys <= SoftRetainAsWritten(m).Keys
    ensures EmergencyRetain(SoftRetainAsWritten(m)) == EmergencyRetain(m)
  {
  }

  /** The source keeps an unprotected empty-string key that the keep list does not name. */
  lemma EmptyKeySurvivesAsWritten()
    ensures "" in SoftRetainAsWritten(map["" := "x"])
    ensures "" !in SoftRetain(map["" := "x"])
  {
  }

  /** On every store without an empty-string key, the source and the corrected policy agree. */
  lemma SoftRetainAgreesWithoutEmptyKey(m: map<string, string>)
    requires "" !in m
    ensures SoftRetainAsWritten(m) == SoftRetain(m)
  {
  }

  /** The keys `Object.keys(localStorage)` never lists. `Storage` is not declared with
      `[LegacyOverrideBuiltIns]`, so under the named property visibility algorithm of
      the WebIDL standard a stored key that names an inherited property is not an own
      enumerable property of `localStorage`. */
  const HiddenStorageKeys: set<string> := StoragePrototypeMembers + ObjectPrototypeMembers

  /** The key-value store as `emergencyCleanup` actually leaves it: it removes only the
      keys `Object.keys` enumerates, so the hidden keys stay along with the session key. */
  function EmergencyRetainAsWritten(m: map<string, string>): map<string, string>
  {
    Retain(m, EmergencyKeepKeys + HiddenStorageKeys)
  }

  /** What `emergencyCleanup` as written promises: the session key stays with its value,
      so does every hidden key, every other key goes, a second run changes nothing, and
      after either soft cleanup it leaves exactly the session key. */
  lemma EmergencyRetainAsWrittenPolicy(m: map<string, string>)
    ensures AdminSessionKey in m ==>
              AdminSessionKey in EmergencyRetainAsWritten(m) && EmergencyRetainAsWritten(m)[AdminSessionKey] == m[AdminSessionKey]
    ensures forall k :: k in m && k in HiddenStorageKeys ==> k in EmergencyRetainAsWritten(m)
    ensures forall k :: k != AdminSessionKey && k !in HiddenStorageKeys ==> k !in EmergencyRetainAsWritten(m)
    ensures EmergencyRetainAsWritten(EmergencyRetainAsWritten(m)) == EmergencyRetainAsWritten(m)
    ensures EmergencyRetainAsWritten(SoftRetain(m)) == EmergencyRetain(m)
    ensures EmergencyRetainAsWritten(SoftRetainAsWritten(m)) == EmergencyRetain(m)
  {
    assert "" !in HiddenStorageKeys && "language" !in HiddenStorageKeys && "theme" !in HiddenStorageKeys;
  }

  /** The source keeps a stored `length` key through emergency cleanup, although the
      critical list names only the session key. */
  lemma HiddenKeySurvivesEmergency()
    ensures var m := map["length" := "x", "admin_session" := "logged_in"];
            EmergencyRetainAsWritten(m) == m &&
            EmergencyRetain(m) == map["admin_session" := "logged_in"]
  {
  }

  /** On every store without a hidden key, the source and the corrected policy agree. */
  lemma EmergencyAgreesWithoutHiddenKeys(m: map<string, string>)
    requires forall k :: k in m ==> k !in HiddenStorageKeys
    ensures EmergencyRetainAsWritten(m) == EmergencyRetain(m)
  {
  }

  // ---------------------------------------------------------------------------
  // Database cleanup policy on values
  // ---------------------------------------------------------------------------

  /** The substring that exempts a database from soft cleanup. */
  const EssentialMarker: string := "essential"

  /** JavaScript's `s.includes(sub)`: `sub` occurs in `s` at some position. */
  predicate Includes(s: string, sub: string)
    decreases |s|
  {
    (|sub| <= |s| && s[..|sub|] == sub) || (s != [] && Includes(s[1..], sub))
  }

  /** `sub` occurs in `s` starting at offset `i`. */
  predicate OccursAt(s: string, sub: string, i: int)
  {
    0 <= i <= |s| - |sub| && s[i..i + |sub|] == sub
  }

  /** `Includes` holds exactly when `sub` occurs at some offset. */
  lemma {:induction false} IncludesAt(s: string, sub: string)
    ensures Includes(s, sub) <==> exists i :: OccursAt(s, sub, i)
    decreases |s|
  {
    if s == [] {
      if sub == [] {
        assert OccursAt(s, sub, 0);
      }
      if exists i :: OccursAt(s, sub, i) {
        var i :| OccursAt(s, sub, i);
        assert i == 0;
      }
    } else {
      IncludesAt(s[1..], sub);
      if |sub| <= |s| && s[..|sub|] == sub {
        assert OccursAt(s, sub, 0);
      } else if Includes(s[1..], sub) {
        var i :| OccursAt(s[1..], sub, i);
        assert s[i + 1..i + 1 + |sub|] == s[1..][i..i + |sub|];
        assert OccursAt(s, sub, i + 1);
      }
      if exists i :: OccursAt(s, sub, i) {
        var i :| OccursAt(s, sub, i);
        if i > 0 {
          assert s[1..][i - 1..i - 1 + |sub|] == s[i..i + |sub|];
          assert OccursAt(s[1..], sub, i - 1);
        } else {
          assert s[..|sub|] == s[i..i + |sub|];
        }
      }
    }
  }

  /** An entry of `indexedDB.databases()` is a deletion target when it has a non-empty
      name (an empty name is falsy, like a missing one) and, when essential databases
      are spared, that name does not contain the marker. */
  predicate IsTarget(db: Option<string>, spareEssential: bool)
  {
    db.Some? && db.value != "" && !(spareEssential && Includes(db.value, EssentialMarker))
  }

  function Targets(spareEssential: bool): Option<string> -> bool
  {
    db => IsTarget(db, spareEssential)
  }

  /** An entry survives a cleanup when it is not a target or its deletion fails. */
  function Survives(spareEssential: bool, fails: set<string>): Option<string> -> bool
  {
    db => !IsTarget(db, spareEssential) || db.value in fails
  }

  /** The names of the named entries, in order. */
  function NamesOf(dbs: seq<Option<string>>): (r: seq<string>)
    ensures |r| <= |dbs|
    ensures forall n :: n in r <==> Some(n) in dbs
  {
    if dbs == [] then []
    else (if dbs[0].Some? then [dbs[0].value] else []) + NamesOf(dbs[1..])
  }

  lemma {:induction false} NamesOfConcat(a: seq<Option<string>>, b: seq<Option<string>>)
    ensures NamesOf(a + b) == NamesOf(a) + NamesOf(b)
    decreases |a|
  {
    if a == [] {
      assert a + b == b;
    } else {
      assert (a + b)[0] == a[0];
      assert (a + b)[1..] == a[1..] + b;
      NamesOfConcat(a[1..], b);
    }
  }

  /** Soft cleanup never removes an essential database, and the only named databases
      it leaves are essential ones, an empty-named one, and those whose deletion failed. */
  lemma SoftSparesEssential(dbs: seq<Option<string>>, fails: set<string>)
    ensures forall n :: Some(n) in dbs && Includes(n, EssentialMarker) ==>
              Some(n) in Filter(dbs, Survives(true, fails))
    ensures forall n :: Some(n) in Filter(dbs, Survives(true, fails)) ==>
              n == "" || Includes(n, EssentialMarker) || n in fails
  {
  }

  /** Emergency cleanup leaves only nameless or empty-named entries and failed
      deletions, and it keeps
      a part of what soft cleanup keeps, in the same order. */
  lemma EmergencyRemovesAllNamed(dbs: seq<Option<string>>, fails: set<string>)
    ensures forall db :: db in Filter(dbs, Survives(false, fails)) ==> db.None? || db.value == "" || db.value in fails
    ensures IsSubsequence(Filter(dbs, Survives(false, fails)), Filter(dbs, Survives(true, fails)))
  {
    FilterStrongerIsSubsequence(dbs, Survives(false, fails), Survives(true, fails));
  }

  /** Every soft deletion target is an emergency deletion target, and the soft
      targets come in the same order among the emergency ones. */
  lemma SoftTargetsWithinEmergency(dbs: seq<Option<string>>)
    ensures IsSubsequence(Filter(dbs, Targets(true)), Filter(dbs, Targets(false)))
  {
    FilterStrongerIsSubsequence(dbs, Targets(true), Targets(false));
  }

  /** Neither tier deletes an entry whose name is empty: it stays in the list. */
  lemma EmptyNameSkipped(spareEssential: bool, fails: set<string>)
    ensures !IsTarget(Some(""), spareEssential)
    ensures Filter([Some(""), Some("cache-db")], Survives(spareEssential, fails)) ==
              [Some("")] + (if "cache-db" in fails then [Some("cache-db")] else [])
    ensures NamesOf(Filter([Some(""), Some("cache-db")], Targets(spareEssential))) == ["cache-db"]
  {
    assert !Includes("cache-db", EssentialMarker);
    FilterConcat([Some("")], [Some("cache-db")], Survives(spareEssential, fails));
    FilterConcat([Some("")], [Some("cache-db")], Targets(spareEssential));
    FilterSingleton(Some(""), Survives(spareEssential, fails));
    FilterSingleton(Some("cache-db"), Survives(spareEssential, fails));
    FilterSingleton(Some(""), Targets(spareEssential));
    FilterSingleton(Some("cache-db"), Targets(spareEssential));
    assert [Some(""), Some("cache-db")] == [Some("")] + [Some("cache-db")];
  }

  /** After a soft cleanup in which every deletion succeeded, a second one finds
      nothing to delete. */
  lemma SoftCleanupSettles(dbs: seq<Option<string>>)
    ensures Filter(Filter(dbs, Survives(true, {})), Targets(true)) == []
  {
    FilterEmpty(Filter(dbs, Survives(true, {})), Targets(true));
  }

  /** One more entry of the database list: what is attempted and what survives. */
  lemma DeletionStep(prefix: seq<Option<string>>, db: Option<string>, spareEssential: bool, fails: set<string>)
    ensures NamesOf(Filter(prefix + [db], Targets(spareEssential))) ==
              NamesOf(Filter(prefix, Targets(spareEssential))) + (if IsTarget(db, spareEssential) then [db.value] else [])
    ensures Filter(prefix + [db], Survives(spareEssential, fails)) ==
              Filter(prefix, Survives(spareEssential, fails)) + (if Survives(spareEssential, fails)(db) then [db] else [])
  {
    FilterConcat(prefix, [db], Targets(spareEssential));
    FilterConcat(prefix, [db], Survives(spareEssential, fails));
    FilterSingleton(db, Targets(spareEssential));
    FilterSingleton(db, Survives(spareEssential, fails));
    NamesOfConcat(Filter(prefix, Targets(spareEssential)), Filter([db], Targets(spareEssential)));
    assert NamesOf([db]) == if db.Some? then [db.value] else [] by {
      assert [db][1..] == [];
    }
  }

  // ---------------------------------------------------------------------------
  // The browser's stores, and the cleanup operations that change them in place
  // ---------------------------------------------------------------------------

  /** The four stores the guardian inspects: the persistent key-value store, the
      session store, the named caches, and the entries `indexedDB.databases()` lists. */
  class BrowserStorage {
    var local: map<string, string>
    var session: map<string, string>
    var caches: set<string>
    var databases: seq<Option<string>>

    constructor (local: map<string, string>, session: map<string, string>,
                 caches: set<string>, databases: seq<Option<string>>)
      ensures this.local == local && this.session == session
      ensures this.caches == caches && this.databases == databases
    {
      this.local := local;
      this.session := session;
      this.caches := caches;
      this.databases := databases;
    }

    /** Removes every key of the key-value store outside `keep`: the keys are taken
        first, then removed one by one. With `skipEmptyKey`, the collection tests the
        key for truthiness first, so an empty-string key is never collected. */
    method RemoveKeysExcept(keep: set<string>, skipEmptyKey: bool)
      modifies this`local
      ensures local == Retain(old(local), if skipEmptyKey then keep + {""} else keep)
    {
      ghost var kept := if skipEmptyKey then keep + {""} else keep;
      ghost var before := local;
      var keysToRemove: set<string> := {};
      var pending := local.Keys;
      while pending != {}
        invariant pending <= local.Keys && local == before
        invariant keysToRemove == (local.Keys - pending) - kept
        decreases pending
      {
        var key :| key in pending;
        if !(skipEmptyKey && key == "") && key !in keep {
          keysToRemove := keysToRemove + {key};
        }
        pending := pending - {key};
      }
      var rest := keysToRemove;
      while rest != {}
        invariant rest <= keysToRemove
        invariant local == before - (keysToRemove - rest)
        decreases rest
      {
        var key :| key in rest;
        local := local - {key};
        rest := rest - {key};
      }
      assert local == Retain(before, kept);
    }

    /** Deletes every named cache; a deletion listed in `fails` is rejected, caught,
        and leaves that cache in place, while the others proceed. */
    method DeleteAllCaches(fails: set<string>)
      modifies this`caches
      ensures caches == old(caches) * fails
    {
      var names := caches;
      var pending := names;
      while pending != {}
        invariant pending <= names
        invariant caches == pending + names * fails
        decreases pending
      {
        var name :| name in pending;
        if name !in fails {
          caches := caches - {name};
        }
        pending := pending - {name};
      }
    }

    /** Issues a deletion for every target entry of the database list and returns
        the names it tried, in list order. A deletion listed in `fails` reports an
        error, which still settles, so the remaining deletions proceed. */
    method DeleteDatabases(spareEssential: bool, fails: set<string>) returns (attempted: seq<string>)
      modifies this`databases
      ensures attempted == NamesOf(Filter(old(databases), Targets(spareEssential)))
      ensures databases == Filter(old(databases), Survives(spareEssential, fails))
    {
      var dbs := databases;
      var kept: seq<Option<string>> := [];
      attempted := [];
      for i := 0 to |dbs|
        invariant attempted == NamesOf(Filter(dbs[..i], Targets(spareEssential)))
        invariant kept == Filter(dbs[..i], Survives(spareEssential, fails))
      {
        var db := dbs[i];
        assert dbs[..i + 1] == dbs[..i] + [db];
        DeletionStep(dbs[..i], db, spareEssential, fails);
        if IsTarget(db, spareEssential) {
          attempted := attempted + [db.value];
          if db.value in fails {
            kept := kept + [db];
          }
        } else {
          kept := kept + [db];
        }
      }
      assert dbs[..|dbs|] == dbs;
      databases := kept;
    }

    /** `clearCaches`: soft cleanup of the key-value store (the protected keys stay,
        and so does an empty-string key, which the collection loop never picks up),
        the session store emptied, and every cache deleted. */
    method ClearCaches(cacheFails: set<string>)
      modifies this
      ensures local == SoftRetainAsWritten(old(local))
      ensures session == map[]
      ensures caches == old(caches) * cacheFails
      ensures databases == old(databases)
    {
      RemoveKeysExcept(SoftKeepKeys, true);
      session := map[];
      DeleteAllCaches(cacheFails);
    }

    /** `cleanupIndexedDB`: deletes every named database whose name does not contain
        the essential marker; nameless and empty-named entries are skipped. */
    method CleanupIndexedDB(dbFails: set<string>) returns (attempted: seq<string>)
      modifies this`databases
      ensures attempted == NamesOf(Filter(old(databases), Targets(true)))
      ensures databases == Filter(old(databases), Survives(true, dbFails))
    {
      attempted := DeleteDatabases(true, dbFails);
    }

    /** `performFullCleanup`: both soft tiers. The source runs them concurrently; they
        touch disjoint stores, so running one after the other has the same outcome. */
    method PerformFullCleanup(cacheFails: set<string>, dbFails: set<string>) returns (attempted: seq<string>)
      modifies this
      ensures local == SoftRetainAsWritten(old(local))
      ensures session == map[]
      ensures caches == old(caches) * cacheFails
      ensures attempted == NamesOf(Filter(old(databases), Targets(true)))
      ensures databases == Filter(old(databases), Survives(true, dbFails))
    {
      ClearCaches(cacheFails);
      attempted := CleanupIndexedDB(dbFails);
    }

    /** `monitorStorage` for one estimate: reports the tier, and only a critical
        reading triggers `clearCaches`; without a snapshot nothing happens. */
    method MonitorStorage(e: Estimate, cacheFails: set<string>) returns (level: Option<Pressure>)
      modifies this
      ensures level == MonitorLevel(e)
      ensures level == Some(Critical) ==>
                local == SoftRetainAsWritten(old(local)) && session == map[] &&
                caches == old(caches) * cacheFails && databases == old(databases)
      ensures level != Some(Critical) ==>
                local == old(local) && session == old(session) &&
                caches == old(caches) && databases == old(databases)
    {
      var info := GetStorageInfo(e);
      if info.None? {
        return None;
      }
      if info.value.percentage > 95.0 {
        level := Some(Critical);
        ClearCaches(cacheFails);
      } else if info.value.percentage > 80.0 {
        level := Some(High);
      } else {
        level := Some(Normal);
      }
    }

    /** `emergencyCleanup`: of the keys `Object.keys` lists, only the session key stays
        in the key-value store, and the hidden keys are never listed; the session store
        and every cache are cleared, and every named database is
        deleted, essential or not (nameless and empty-named entries are skipped). */
    method EmergencyCleanup(cacheFails: set<string>, dbFails: set<string>) returns (attempted: seq<string>)
      modifies this
      ensures local == EmergencyRetainAsWritten(old(local))
      ensures session == map[]
      ensures caches == old(caches) * cacheFails
      ensures attempted == NamesOf(Filter(old(databases), Targets(false)))
      ensures databases == Filter(old(databases), Survives(false, dbFails))
    {
      RemoveKeysExcept(EmergencyKeepKeys + HiddenStorageKeys, false);
      session := map[];
      DeleteAllCaches(cacheFails);
      attempted := DeleteDatabases(false, dbFails);
    }
  }
}
