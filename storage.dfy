/**
 * Flash storage on LittleFS: one JSON configuration file of keyed values, and
 * a data folder of per-sensor time series, each file a JSON array of
 * (timestamp, value) readings. The JSON and file-system layers are abstract:
 * a file is what it parses to, or `Corrupt` when it does not parse, and the
 * data folder is a map from file name to contents plus the order in which
 * the folder lists its entries.
 */
module Storage {
  import opened Util

  // ---- values ----

  /** A JSON scalar as the configuration document holds it. */
  datatype Scalar = Int(i: int) | Dec(r: real) | Flag(b: bool)

  /**
   * A configuration value: a plain string, or the serialized text of a flat
   * JSON object, represented by the object itself.
   */
  datatype Text = Plain(s: string) | Doc(fields: map<string, Scalar>)

  /** The configuration file: absent, present but not parseable, or a JSON object. */
  datatype ConfigFile = NoConfig | BadConfig | Config(entries: map<string, Text>)

  datatype Reading = Reading(timestamp: int, value: Measure)

  /** A data file: a parsed array of readings, or contents that do not parse. */
  datatype StoredFile = Corrupt | Series(entries: seq<Reading>)

  /** Whether the flash mounts, and whether the data folder exists or can be created. */
  datatype Flash = Flash(mounts: bool, dirReady: bool)

  const DefaultConfigFile := "/config.json"
  const DefaultDataFolder := "/data"
  const JsonSuffix := ".json"

  const ErrMount := 1
  const ErrMkdir := 2
  const ErrParse := 5

  datatype StorageState = StorageState(
    initialized: bool,
    lastError: int,
    config: ConfigFile,
    data: map<string, StoredFile>,
    order: seq<string>)

  predicate EndsWith(s: string, suffix: string) {
    |suffix| <= |s| && s[|s| - |suffix|..] == suffix
  }

  /** The name, inside the data folder, of the file for one sensor and one kind of reading. */
  function FileName(sensorId: string, readingType: string): string {
    sensorId + "_" + readingType + JsonSuffix
  }

  /** `getSensorDataFilename`: the folder, a slash, then the file name. */
  function DataFilename(folder: string, sensorId: string, readingType: string): string {
    folder + "/" + FileName(sensorId, readingType)
  }

  /** Every data file name carries the suffix the pruning pass looks for. */
  lemma FileNameIsJson(folder: string, sensorId: string, readingType: string)
    ensures EndsWith(FileName(sensorId, readingType), JsonSuffix)
    ensures DataFilename(folder, sensorId, readingType)[..|folder| + 1] == folder + "/"
    ensures DataFilename(folder, sensorId, readingType)[|folder| + 1..] == FileName(sensorId, readingType)
  {
    var name := FileName(sensorId, readingType);
    assert name[|name| - |JsonSuffix|..] == JsonSuffix;
    assert DataFilename(folder, sensorId, readingType) == (folder + "/") + name;
  }

  // ---- filtering and searching a series ----

  /** The readings of `rs` that `keep` accepts, in their stored order. */
  function Filter(rs: seq<Reading>, keep: Reading -> bool): (out: seq<Reading>)
    ensures |out| <= |rs|
    decreases |rs|
  {
    if |rs| == 0 then []
    else Filter(rs[..|rs| - 1], keep) + (if keep(rs[|rs| - 1]) then [rs[|rs| - 1]] else [])
  }

  function Window(startTime: int, endTime: int): Reading -> bool {
    (r: Reading) => startTime <= r.timestamp <= endTime
  }

  function NotOlderThan(olderThan: int): Reading -> bool {
    (r: Reading) => r.timestamp >= olderThan
  }

  /** Filtering a concatenation filters each part. */
  lemma {:induction false} FilterConcat(a: seq<Reading>, b: seq<Reading>, keep: Reading -> bool)
    ensures Filter(a + b, keep) == Filter(a, keep) + Filter(b, keep)
    decreases |b|
  {
    if |b| == 0 {
      assert a + b == a;
    } else {
      var b' := b[..|b| - 1];
      assert (a + b)[..|a + b| - 1] == a + b';
      assert (a + b)[|a + b| - 1] == b[|b| - 1];
      FilterConcat(a, b', keep);
    }
  }

  /** A reading is in the filtered series exactly when it is in the series and accepted. */
  lemma {:induction false} FilterMembers(rs: seq<Reading>, keep: Reading -> bool)
    ensures forall r :: r in Filter(rs, keep) <==> r in rs && keep(r)
    decreases |rs|
  {
    if |rs| > 0 {
      var init := rs[..|rs| - 1];
      FilterMembers(init, keep);
      assert rs == init + [rs[|rs| - 1]];
    }
  }

  /** Nothing is removed exactly when every reading is accepted, and then the series is unchanged. */
  lemma {:induction false} FilterKeepsAll(rs: seq<Reading>, keep: Reading -> bool)
    ensures |Filter(rs, keep)| == |rs| <==> forall i :: 0 <= i < |rs| ==> keep(rs[i])
    ensures |Filter(rs, keep)| == |rs| ==> Filter(rs, keep) == rs
    decreases |rs|
  {
    if |rs| > 0 {
      var init := rs[..|rs| - 1];
      FilterKeepsAll(init, keep);
      assert rs == init + [rs[|rs| - 1]];
      if !keep(rs[|rs| - 1]) {
        assert |Filter(rs, keep)| < |rs|;
      }
    }
  }

  /** Filtering twice with the same test is filtering once. */
  lemma FilterIdempotent(rs: seq<Reading>, keep: Reading -> bool)
    ensures Filter(Filter(rs, keep), keep) == Filter(rs, keep)
  {
    var out := Filter(rs, keep);
    FilterMembers(rs, keep);
    assert forall i :: 0 <= i < |out| ==> out[i] in out;
    FilterKeepsAll(out, keep);
  }

  /**
   * The index of the reading `getLastSensorReading` reports: the first one
   * whose timestamp is greater than every timestamp before it and than 0, or
   * -1 when no timestamp is positive.
   */
  function LatestIndex(rs: seq<Reading>): (k: int)
    ensures -1 <= k < |rs|
    decreases |rs|
  {
    if |rs| == 0 then -1
    else
      var k := LatestIndex(rs[..|rs| - 1]);
      var best := if k < 0 then 0 else rs[k].timestamp;
      if rs[|rs| - 1].timestamp > best then |rs| - 1 else k
  }

  /** The reported value: the reading at `LatestIndex`, or NaN. */
  function LatestValue(rs: seq<Reading>): Measure {
    var k := LatestIndex(rs);
    if k < 0 then NaN else rs[k].value
  }

  /**
   * The search finds nothing exactly when no timestamp is positive; otherwise
   * it finds a reading with a positive timestamp that no other reading
   * exceeds, and no earlier reading reaches.
   */
  lemma {:induction false} LatestIsFirstMaximum(rs: seq<Reading>)
    ensures LatestIndex(rs) < 0 <==> forall j :: 0 <= j < |rs| ==> rs[j].timestamp <= 0
    ensures var k := LatestIndex(rs);
            k >= 0 ==> && rs[k].timestamp > 0
                       && (forall j :: 0 <= j < |rs| ==> rs[j].timestamp <= rs[k].timestamp)
                       && (forall j :: 0 <= j < k ==> rs[j].timestamp < rs[k].timestamp)
    decreases |rs|
  {
    if |rs| > 0 {
      var init := rs[..|rs| - 1];
      LatestIsFirstMaximum(init);
      assert forall j :: 0 <= j < |init| ==> rs[j] == init[j];
    }
  }

  // ---- pruning ----

  /** Whether the pruning pass rewrites this entry of the data folder. */
  predicate Prunable(name: string, f: StoredFile) {
    EndsWith(name, JsonSuffix) && f.Series?
  }

  /** The number of readings in a data file, 0 for a missing or corrupt one. */
  function Size(data: map<string, StoredFile>, name: string): nat {
    if name in data && data[name].Series? then |data[name].entries| else 0
  }

  /** The pruning pass on one folder entry: the new folder and the number of readings removed. */
  function PruneFile(data: map<string, StoredFile>, name: string, olderThan: int): (map<string, StoredFile>, nat) {
    if name in data && Prunable(name, data[name]) then
      var rs := data[name].entries;
      var kept := Filter(rs, NotOlderThan(olderThan));
      if |kept| < |rs| then (data[name := Series(kept)], |rs| - |kept|) else (data, 0)
    else (data, 0)
  }

  /** The pruning pass over the folder entries `names`, in order. */
  function PruneAll(data: map<string, StoredFile>, names: seq<string>, olderThan: int): (map<string, StoredFile>, nat)
    decreases |names|
  {
    if |names| == 0 then (data, 0)
    else
      var before := PruneAll(data, names[..|names| - 1], olderThan);
      var step := PruneFile(before.0, names[|names| - 1], olderThan);
      (step.0, before.1 + step.1)
  }

  /** What a folder entry holds after pruning. */
  function PrunedFile(name: string, f: StoredFile, olderThan: int): StoredFile {
    if Prunable(name, f) then Series(Filter(f.entries, NotOlderThan(olderThan))) else f
  }

  lemma PruneFileEffect(data: map<string, StoredFile>, name: string, olderThan: int)
    ensures var r := PruneFile(data, name, olderThan);
            && r.0.Keys == data.Keys
            && (forall n :: n in data && n != name ==> r.0[n] == data[n])
            && (name in data ==> r.0[name] == PrunedFile(name, data[name], olderThan))
            && Size(data, name) == Size(r.0, name) + r.1
  {
    if name in data && Prunable(name, data[name]) {
      FilterKeepsAll(data[name].entries, NotOlderThan(olderThan));
    }
  }

  /**
   * After pruning, every listed JSON series holds exactly its readings not
   * older than `olderThan`, in order; every other entry is as it was.
   */
  lemma {:induction false} PruneAllEffect(data: map<string, StoredFile>, names: seq<string>, olderThan: int)
    ensures var r := PruneAll(data, names, olderThan).0;
            && r.Keys == data.Keys
            && forall n :: n in data ==> r[n] == if n in names then PrunedFile(n, data[n], olderThan) else data[n]
    decreases |names|
  {
    if |names| > 0 {
      var init := names[..|names| - 1];
      var last := names[|names| - 1];
      PruneAllEffect(data, init, olderThan);
      var before := PruneAll(data, init, olderThan).0;
      PruneFileEffect(before, last, olderThan);
      assert forall n :: n in names <==> n in init || n == last;
      if last in data && Prunable(last, data[last]) {
        FilterIdempotent(data[last].entries, NotOlderThan(olderThan));
      }
    }
  }

  lemma NoOldReadingsLeft(data: map<string, StoredFile>, names: seq<string>, olderThan: int, n: string)
    requires n in names && n in data && Prunable(n, data[n])
    ensures var r := PruneAll(data, names, olderThan).0;
            n in r && r[n].Series? && forall x :: x in r[n].entries <==> x in data[n].entries && x.timestamp >= olderThan
  {
    PruneAllEffect(data, names, olderThan);
    FilterMembers(data[n].entries, NotOlderThan(olderThan));
  }

  /** The total number of readings in the listed entries. */
  function TotalSize(data: map<string, StoredFile>, names: seq<string>): nat
    decreases |names|
  {
    if |names| == 0 then 0 else TotalSize(data, names[..|names| - 1]) + Size(data, names[|names| - 1])
  }

  predicate NoDuplicates(names: seq<string>) {
    forall i, j :: 0 <= i < j < |names| ==> names[i] != names[j]
  }

  lemma {:induction false} TotalSizeFrame(d1: map<string, StoredFile>, d2: map<string, StoredFile>, names: seq<string>)
    requires forall n :: n in names ==> Size(d1, n) == Size(d2, n)
    ensures TotalSize(d1, names) == TotalSize(d2, names)
    decreases |names|
  {
    if |names| > 0 {
      TotalSizeFrame(d1, d2, names[..|names| - 1]);
    }
  }

  /** The pass reports exactly the number of readings that disappeared from the listed files. */
  lemma {:induction false} PruneCount(data: map<string, StoredFile>, names: seq<string>, olderThan: int)
    requires NoDuplicates(names)
    ensures var r := PruneAll(data, names, olderThan);
            r.1 + TotalSize(r.0, names) == TotalSize(data, names)
    decreases |names|
  {
    if |names| > 0 {
      var init := names[..|names| - 1];
      var last := names[|names| - 1];
      assert NoDuplicates(init);
      assert last !in init;
      PruneCount(data, init, olderThan);
      var before := PruneAll(data, init, olderThan).0;
      PruneFileEffect(before, last, olderThan);
      var after := PruneFile(before, last, olderThan).0;
      TotalSizeFrame(before, after, init);
      PruneAllEffect(data, init, olderThan);
      assert Size(before, last) == Size(data, last);
    }
  }

  lemma PruneCountWhenListedOnce(data: map<string, StoredFile>, names: seq<string>, olderThan: int)
    ensures var r := PruneAll(data, names, olderThan);
            NoDuplicates(names) ==> r.1 + TotalSize(r.0, names) == TotalSize(data, names)
  {
    if NoDuplicates(names) {
      PruneCount(data, names, olderThan);
    }
  }

  // ---- the storage operations on states ----

  /** `initialize()`: once; code 1 when the flash does not mount, 2 when the data folder cannot be made. */
  function StoreInit(s: StorageState, flash: Flash): (r: (StorageState, bool))
    ensures r.1 <==> s.initialized || (flash.mounts && flash.dirReady)
    ensures r.1 <==> r.0.initialized
    ensures s.initialized ==> r.0 == s
    ensures !s.initialized ==> r.0.lastError == (if !flash.mounts then ErrMount else if !flash.dirReady then ErrMkdir else 0)
    ensures r.0 == s.(initialized := r.0.initialized, lastError := r.0.lastError)
  {
    if s.initialized then (s, true)
    else if !flash.mounts then (s.(lastError := ErrMount), false)
    else if !flash.dirReady then (s.(lastError := ErrMkdir), false)
    else (s.(initialized := true, lastError := 0), true)
  }

  /** The configuration object a write starts from: an unreadable file counts as empty. */
  function ConfigEntries(c: ConfigFile): map<string, Text> {
    if c.Config? then c.entries else map[]
  }

  /** `storeConfig(key, value)`: sets one key and writes the whole object back. */
  function StoreConfig(s: StorageState, flash: Flash, key: string, value: Text): (r: (StorageState, bool))
    ensures r.1 <==> StoreInit(s, flash).1
    ensures !r.1 ==> r.0 == StoreInit(s, flash).0
    ensures r.0.data == s.data && r.0.order == s.order
    ensures r.1 ==> && r.0.config.Config? && key in r.0.config.entries && r.0.config.entries[key] == value
                    && forall k :: k != key ==>
                         (k in r.0.config.entries <==> k in ConfigEntries(s.config))
                         && (k in r.0.config.entries ==> r.0.config.entries[k] == ConfigEntries(s.config)[k])
  {
    var i := StoreInit(s, flash);
    if !i.1 then i
    else (i.0.(config := Config(ConfigEntries(i.0.config)[key := value])), true)
  }

  /** `getConfig(key, default)`: the stored value, or the default for a missing file or key; code 5 when it does not parse. */
  function GetConfig(s: StorageState, flash: Flash, key: string, default: Text): (r: (StorageState, Text))
    ensures r.0 == StoreInit(s, flash).0.(lastError := r.0.lastError)
    ensures r.1 == if StoreInit(s, flash).1 && s.config.Config? && key in s.config.entries
                   then s.config.entries[key] else default
    ensures r.0.lastError == if StoreInit(s, flash).1 && s.config.BadConfig? then ErrParse
                             else StoreInit(s, flash).0.lastError
  {
    var i := StoreInit(s, flash);
    if !i.1 then (i.0, default)
    else match i.0.config
      case NoConfig => (i.0, default)
      case BadConfig => (i.0.(lastError := ErrParse), default)
      case Config(m) => (i.0, if key in m then m[key] else default)
  }

  /** The readings a data file contributes when a reading is appended: none for a missing or corrupt file. */
  function SeriesOf(data: map<string, StoredFile>, name: string): seq<Reading> {
    if name in data && data[name].Series? then data[name].entries else []
  }

  /** `storeSensorReading`: appends one reading to the sensor's file, creating it when new. */
  function StoreReading(s: StorageState, flash: Flash, sensorId: string, readingType: string, value: Measure, timestamp: int): (r: (StorageState, bool))
    ensures r.1 <==> StoreInit(s, flash).1
    ensures !r.1 ==> r.0 == StoreInit(s, flash).0
    ensures r.0.config == s.config
    ensures var name := FileName(sensorId, readingType);
            r.1 ==> && name in r.0.data && r.0.data[name] == Series(SeriesOf(s.data, name) + [Reading(timestamp, value)])
                    && r.0.order == (if name in s.data then s.order else s.order + [name])
                    && forall n :: n != name ==> (n in r.0.data <==> n in s.data)
                                                  && (n in s.data ==> r.0.data[n] == s.data[n])
  {
    var i := StoreInit(s, flash);
    if !i.1 then i
    else
      var name := FileName(sensorId, readingType);
      var order := if name in i.0.data then i.0.order else i.0.order + [name];
      (i.0.(data := i.0.data[name := Series(SeriesOf(i.0.data, name) + [Reading(timestamp, value)])], order := order), true)
  }

  /** `getSensorReadings`: the readings of one file inside a closed time window; code 5 when it does not parse. */
  function GetReadings(s: StorageState, flash: Flash, sensorId: string, readingType: string, startTime: int, endTime: int): (r: (StorageState, seq<Reading>))
    ensures r.0 == StoreInit(s, flash).0.(lastError := r.0.lastError)
    ensures var name := FileName(sensorId, readingType);
            r.1 == if StoreInit(s, flash).1 then Filter(SeriesOf(s.data, name), Window(startTime, endTime)) else []
    ensures var name := FileName(sensorId, readingType);
            r.0.lastError == if StoreInit(s, flash).1 && name in s.data && s.data[name].Corrupt? then ErrParse
                             else StoreInit(s, flash).0.lastError
  {
    var i := StoreInit(s, flash);
    var name := FileName(sensorId, readingType);
    if !i.1 || name !in i.0.data then (i.0, [])
    else match i.0.data[name]
      case Corrupt => (i.0.(lastError := ErrParse), [])
      case Series(rs) => (i.0, Filter(rs, Window(startTime, endTime)))
  }

  /** `getLastSensorReading`: the value with the latest positive timestamp, NaN otherwise. */
  function LastReading(s: StorageState, flash: Flash, sensorId: string, readingType: string): (r: (StorageState, Measure))
    ensures r.0 == StoreInit(s, flash).0.(lastError := r.0.lastError)
    ensures var name := FileName(sensorId, readingType);
            r.1 == if StoreInit(s, flash).1 then LatestValue(SeriesOf(s.data, name)) else NaN
    ensures var name := FileName(sensorId, readingType);
            r.0.lastError == if StoreInit(s, flash).1 && name in s.data && s.data[name].Corrupt? then ErrParse
                             else StoreInit(s, flash).0.lastError
  {
    var i := StoreInit(s, flash);
    var name := FileName(sensorId, readingType);
    if !i.1 || name !in i.0.data then (i.0, NaN)
    else match i.0.data[name]
      case Corrupt => (i.0.(lastError := ErrParse), NaN)
      case Series(rs) => (i.0, LatestValue(rs))
  }

  /** `pruneOldReadings`: the pruning pass over the folder listing; 0 when storage cannot start. */
  function Prune(s: StorageState, flash: Flash, olderThan: int): (r: (StorageState, nat))
    ensures r.0 == StoreInit(s, flash).0.(data := r.0.data)
    ensures !StoreInit(s, flash).1 ==> r == (StoreInit(s, flash).0, 0)
    ensures r.0.data.Keys == s.data.Keys
    ensures NoDuplicates(s.order) ==> r.1 + TotalSize(r.0.data, s.order) == TotalSize(s.data, s.order)
  {
    var i := StoreInit(s, flash);
    if !i.1 then (i.0, 0)
    else
      var r := PruneAll(i.0.data, i.0.order, olderThan);
      PruneAllEffect(i.0.data, i.0.order, olderThan);
      PruneCountWhenListedOnce(i.0.data, i.0.order, olderThan);
      (i.0.(data := r.0), r.1)
  }

  // ---- properties of the operations ----

  /** The folder listing names every data file exactly once. */
  ghost predicate StorageValid(s: StorageState) {
    && NoDuplicates(s.order)
    && (forall n :: n in s.data <==> n in s.order)
  }

  lemma StoreReadingKeepsValid(s: StorageState, flash: Flash, sensorId: string, readingType: string, value: Measure, timestamp: int)
    requires StorageValid(s)
    ensures StorageValid(StoreReading(s, flash, sensorId, readingType, value, timestamp).0)
  {
  }

  lemma PruneKeepsValid(s: StorageState, flash: Flash, olderThan: int)
    requires StorageValid(s)
    ensures StorageValid(Prune(s, flash, olderThan).0)
  {
    var i := StoreInit(s, flash).0;
    PruneAllEffect(i.data, i.order, olderThan);
  }

  /**
   * After a successful `storeConfig(key, value)`, `getConfig(key, _)` returns
   * `value`; another key keeps its value when the file was readable, and reads
   * as its default when the file had been corrupt.
   */
  lemma StoreThenGetConfig(s: StorageState, flash: Flash, key: string, value: Text, other: string, default: Text)
    requires StoreConfig(s, flash, key, value).1
    ensures var t := StoreConfig(s, flash, key, value).0;
            && GetConfig(t, flash, key, default).1 == value
            && (other != key ==>
                  GetConfig(t, flash, other, default).1
                  == if s.config.Config? then GetConfig(s, flash, other, default).1 else default)
  {
  }

  /** The default comes back for a missing file, an unparseable one (code 5) and a missing key. */
  lemma GetConfigDefaults(s: StorageState, flash: Flash, key: string, default: Text)
    requires s.initialized
    ensures s.config.NoConfig? ==> GetConfig(s, flash, key, default) == (s, default)
    ensures s.config.BadConfig? ==> GetConfig(s, flash, key, default) == (s.(lastError := ErrParse), default)
    ensures s.config.Config? && key !in s.config.entries ==> GetConfig(s, flash, key, default) == (s, default)
  {
  }

  /** Storage that cannot start stores nothing and answers every query with its default. */
  lemma FailedStartChangesOnlyCode(s: StorageState, flash: Flash, sensorId: string, readingType: string, value: Measure, timestamp: int)
    requires !StoreInit(s, flash).1
    ensures StoreReading(s, flash, sensorId, readingType, value, timestamp) == (StoreInit(s, flash).0, false)
    ensures StoreInit(s, flash).0 == s.(lastError := StoreInit(s, flash).0.lastError)
    ensures LastReading(s, flash, sensorId, readingType).1 == NaN
    ensures GetReadings(s, flash, sensorId, readingType, 0, 0).1 == []
  {
  }

  /**
   * Storing a reading appends it to the end of its file, a missing or corrupt
   * file starting afresh with it, and leaves every other file alone.
   */
  lemma StoreReadingAppends(s: StorageState, flash: Flash, sensorId: string, readingType: string, value: Measure, timestamp: int)
    requires StoreInit(s, flash).1
    ensures var t := StoreReading(s, flash, sensorId, readingType, value, timestamp);
            var name := FileName(sensorId, readingType);
            && t.1
            && t.0.data[name] == Series(SeriesOf(s.data, name) + [Reading(timestamp, value)])
            && (name !in s.data || s.data[name].Corrupt? ==> t.0.data[name] == Series([Reading(timestamp, value)]))
            && (forall n :: n in s.data && n != name ==> n in t.0.data && t.0.data[n] == s.data[n])
  {
  }

  /**
   * A window query after storing a reading sees what it saw before, followed
   * by the new reading when its timestamp lies in the window.
   */
  lemma StoreThenQuery(s: StorageState, flash: Flash, sensorId: string, readingType: string, value: Measure,
                       timestamp: int, startTime: int, endTime: int)
    requires StoreInit(s, flash).1
    ensures var t := StoreReading(s, flash, sensorId, readingType, value, timestamp).0;
            var name := FileName(sensorId, readingType);
            GetReadings(t, flash, sensorId, readingType, startTime, endTime).1
              == Filter(SeriesOf(s.data, name), Window(startTime, endTime))
                 + (if startTime <= timestamp <= endTime then [Reading(timestamp, value)] else [])
  {
    var name := FileName(sensorId, readingType);
    var rs := SeriesOf(s.data, name);
    FilterConcat(rs, [Reading(timestamp, value)], Window(startTime, endTime));
    assert Filter([Reading(timestamp, value)], Window(startTime, endTime))
        == (if startTime <= timestamp <= endTime then [Reading(timestamp, value)] else []);
  }

  /** A reading stored with a timestamp beyond all others, and positive, is the latest one. */
  lemma StoreThenLatest(s: StorageState, flash: Flash, sensorId: string, readingType: string, value: Measure, timestamp: int)
    requires StoreInit(s, flash).1 && timestamp > 0
    requires forall r :: r in SeriesOf(s.data, FileName(sensorId, readingType)) ==> r.timestamp < timestamp
    ensures var t := StoreReading(s, flash, sensorId, readingType, value, timestamp).0;
            LastReading(t, flash, sensorId, readingType).1 == value
  {
    var name := FileName(sensorId, readingType);
    var rs := SeriesOf(s.data, name) + [Reading(timestamp, value)];
    var init := rs[..|rs| - 1];
    assert init == SeriesOf(s.data, name);
    var k := LatestIndex(init);
    if k >= 0 {
      assert init[k] in SeriesOf(s.data, name);
    }
  }

  // ---- loops ----

  /** The filter loop of a query or of the pruning pass. */
  method FilterReadings(rs: seq<Reading>, keep: Reading -> bool) returns (out: seq<Reading>)
    ensures out == Filter(rs, keep)
  {
    out := [];
    var i := 0;
    while i < |rs|
      invariant 0 <= i <= |rs|
      invariant out == Filter(rs[..i], keep)
    {
      assert rs[..i + 1][..i] == rs[..i];
      if keep(rs[i]) {
        out := out + [rs[i]];
      }
      i := i + 1;
    }
    assert rs[..|rs|] == rs;
  }

  /** The search loop of `getLastSensorReading`, starting from time 0 and NaN. */
  method FindLatest(rs: seq<Reading>) returns (latest: Measure)
    ensures latest == LatestValue(rs)
  {
    var latestTime := 0;
    latest := NaN;
    var i := 0;
    while i < |rs|
      invariant 0 <= i <= |rs|
      invariant var k := LatestIndex(rs[..i]);
                && (k < 0 ==> latestTime == 0 && latest == NaN)
                && (k >= 0 ==> latestTime == rs[k].timestamp && latest == rs[k].value)
    {
      assert rs[..i + 1][..i] == rs[..i];
      assert forall j :: 0 <= j < i ==> rs[..i][j] == rs[j];
      if rs[i].timestamp > latestTime {
        latestTime := rs[i].timestamp;
        latest := rs[i].value;
      }
      i := i + 1;
    }
    assert rs[..|rs|] == rs;
  }

  class LittleFSStorage {
    const flash: Flash
    const configFile: string
    const dataFolder: string
    var initialized: bool
    var lastError: int
    var config: ConfigFile
    var data: map<string, StoredFile>
    var order: seq<string>

    function State(): StorageState
      reads this
    {
      StorageState(initialized, lastError, config, data, order)
    }

    /** Every listed data file is distinct and exactly the listed files exist. */
    ghost predicate Valid()
      reads this
    {
      StorageValid(State())
    }

    /** `flash` describes the file system the storage finds; `config` and `data` what it holds. */
    constructor (device: Flash, configFileName: string, sensorDataFolder: string,
                 stored: ConfigFile, files: map<string, StoredFile>, listing: seq<string>)
      requires StorageValid(StorageState(false, 0, stored, files, listing))
      ensures flash == device && configFile == configFileName && dataFolder == sensorDataFolder
      ensures State() == StorageState(false, 0, stored, files, listing) && Valid()
    {
      flash := device;
      configFile := configFileName;
      dataFolder := sensorDataFolder;
      initialized := false;
      lastError := 0;
      config := stored;
      data := files;
      order := listing;
    }

    /** The constructor with its default arguments: the configuration in `/config.json`, the data under `/data`. */
    constructor Default(device: Flash, stored: ConfigFile, files: map<string, StoredFile>, listing: seq<string>)
      requires StorageValid(StorageState(false, 0, stored, files, listing))
      ensures flash == device && configFile == DefaultConfigFile && dataFolder == DefaultDataFolder
      ensures State() == StorageState(false, 0, stored, files, listing) && Valid()
    {
      flash := device;
      configFile := DefaultConfigFile;
      dataFolder := DefaultDataFolder;
      initialized := false;
      lastError := 0;
      config := stored;
      data := files;
      order := listing;
    }

    method Initialize() returns (ok: bool)
      modifies this
      ensures (State(), ok) == StoreInit(old(State()), flash)
    {
      if initialized {
        return true;
      }
      if !flash.mounts {
        lastError := ErrMount;
        return false;
      }
      if !flash.dirReady {
        lastError := ErrMkdir;
        return false;
      }
      initialized := true;
      lastError := 0;
      return true;
    }

    function GetSensorDataFilename(sensorId: string, readingType: string): (path: string)
      ensures path == DataFilename(dataFolder, sensorId, readingType)
    {
      dataFolder + "/" + sensorId + "_" + readingType + JsonSuffix
    }

    method StoreConfigValue(key: string, value: Text) returns (ok: bool)
      modifies this
      ensures (State(), ok) == StoreConfig(old(State()), flash, key, value)
    {
      ok := Initialize();
      if !ok {
        return;
      }
      var doc: map<string, Text> := map[];
      if config.Config? {
        doc := config.entries;
      }
      doc := doc[key := value];
      config := Config(doc);
    }

    method GetConfigValue(key: string, default: Text) returns (value: Text)
      modifies this
      ensures (State(), value) == GetConfig(old(State()), flash, key, default)
    {
      var ok := Initialize();
      if !ok {
        return default;
      }
      if config.NoConfig? {
        return default;
      }
      if config.BadConfig? {
        lastError := ErrParse;
        return default;
      }
      if key !in config.entries {
        return default;
      }
      return config.entries[key];
    }

    method StoreSensorReading(sensorId: string, readingType: string, value: Measure, timestamp: int) returns (ok: bool)
      requires Valid()
      modifies this
      ensures (State(), ok) == StoreReading(old(State()), flash, sensorId, readingType, value, timestamp)
      ensures Valid()
    {
      ok := Initialize();
      if !ok {
        return;
      }
      var name := FileName(sensorId, readingType);
      var readings: seq<Reading> := [];
      if name in data {
        if data[name].Series? {
          readings := data[name].entries;
        }
      } else {
        order := order + [name];
      }
      readings := readings + [Reading(timestamp, value)];
      data := data[name := Series(readings)];
      StoreReadingKeepsValid(old(State()), flash, sensorId, readingType, value, timestamp);
    }

    method GetSensorReadings(sensorId: string, readingType: string, startTime: int, endTime: int)
      returns (readings: seq<Reading>)
      modifies this
      ensures (State(), readings) == GetReadings(old(State()), flash, sensorId, readingType, startTime, endTime)
    {
      var ok := Initialize();
      var name := FileName(sensorId, readingType);
      if !ok || name !in data {
        return [];
      }
      if data[name].Corrupt? {
        lastError := ErrParse;
        return [];
      }
      readings := FilterReadings(data[name].entries, Window(startTime, endTime));
    }

    method GetLastSensorReading(sensorId: string, readingType: string) returns (latest: Measure)
      modifies this
      ensures (State(), latest) == LastReading(old(State()), flash, sensorId, readingType)
    {
      var ok := Initialize();
      var name := FileName(sensorId, readingType);
      if !ok || name !in data {
        return NaN;
      }
      if data[name].Corrupt? {
        lastError := ErrParse;
        return NaN;
      }
      var rs := data[name].entries;
      if |rs| == 0 {
        return NaN;
      }
      latest := FindLatest(rs);
    }

    method PruneOldReadings(olderThan: int) returns (totalPruned: nat)
      requires Valid()
      modifies this
      ensures (State(), totalPruned) == Prune(old(State()), flash, olderThan)
      ensures Valid()
    {
      var ok := Initialize();
      if !ok {
        return 0;
      }
      totalPruned := PruneListed(olderThan);
      PruneKeepsValid(old(State()), flash, olderThan);
    }

    /** The pass over the folder listing: each JSON series loses its readings older than `olderThan`. */
    method PruneListed(olderThan: int) returns (totalPruned: nat)
      modifies this
      ensures (data, totalPruned) == PruneAll(old(data), order, olderThan)
      ensures State() == old(State()).(data := data)
    {
      totalPruned := 0;
      var i := 0;
      while i < |order|
        invariant 0 <= i <= |order|
        invariant (data, totalPruned) == PruneAll(old(data), order[..i], olderThan)
        invariant State() == old(State()).(data := data)
      {
        assert order[..i + 1][..i] == order[..i];
        var name := order[i];
        if name in data && EndsWith(name, JsonSuffix) && data[name].Series? {
          var rs := data[name].entries;
          var kept := FilterReadings(rs, NotOlderThan(olderThan));
          if |kept| < |rs| {
            data := data[name := Series(kept)];
            totalPruned := totalPruned + (|rs| - |kept|);
          }
        }
        i := i + 1;
      }
      assert order[..|order|] == order;
    }

    function GetLastError(): (e: int)
      reads this
      ensures e == State().lastError
    {
      lastError
    }
  }
}
