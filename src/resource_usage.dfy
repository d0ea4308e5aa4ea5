/** The resource usage a completed job reports: the sorted copy the runner
    keeps of DRMAA's usage map, and the typed fields it reads out of it. */
module ResourceUsage {
  import opened Wrappers
  import opened Drmaa
  import opened Job
  import opened SortedMap
  import opened StateMapping

  /** The number parsers the runner relies on, taken as given partial
      functions: Guava's `Doubles.tryParse`, and `Memory.fromString` with
      its exception turned into None. */
  datatype UsageParsers = UsageParsers(
    tryParseDouble: string -> Option<real>,
    memoryFromString: string -> Option<Memory>)

  /** `asCpuTime`: seconds, as a decimal string, to whole milliseconds. */
  function AsCpuTime(p: UsageParsers, s: string): (r: Option<int>)
    ensures r.None? <==> s == "" || p.tryParseDouble(s).None?
    ensures r.Some? ==>
      var ms := p.tryParseDouble(s).value * 1000.0;
      r.value as real - 0.5 <= ms < r.value as real + 0.5
  {
    if s == "" then None
    else match p.tryParseDouble(s)
      case None => None
      case Some(d) => Some(Round(d * 1000.0))
  }

  /** `parseDate`: a millisecond time stamp, as a decimal string, to a
      whole millisecond count. */
  function ParseDate(p: UsageParsers, s: string): (r: Option<int>)
    ensures r.None? <==> s == "" || p.tryParseDouble(s).None?
    ensures r.Some? ==>
      r.value as real <= p.tryParseDouble(s).value < r.value as real + 1.0
  {
    if s == "" then None
    else match p.tryParseDouble(s)
      case None => None
      case Some(d) => Some(Floor(d))
  }

  /** `parseMemory`: a plain number is a count of bytes (its fraction
      dropped); anything else goes to `Memory.fromString`. */
  function ParseMemory(p: UsageParsers, s: string): (r: Option<Memory>)
    ensures s == "" ==> r.None?
    ensures s != "" && p.tryParseDouble(s).Some? ==>
      r.Some? && var bytes := r.value.numGb * BytesPerGb as real;
      bytes == bytes.Floor as real
      && bytes <= p.tryParseDouble(s).value < bytes + 1.0
    ensures s != "" && p.tryParseDouble(s).None? ==> r == p.memoryFromString(s)
  {
    if s == "" then None
    else match p.tryParseDouble(s)
      case Some(d) => Some(MemoryFromBytes(Floor(d)))
      case None => p.memoryFromString(s)
  }

  /** The mapping `initResourceUsageMap` copies out of a completion record:
      every key of the fetched map, a null value read as the empty string;
      nothing when the fetch failed or gave null. */
  function UsageContents(fetch: UsageFetch): (m: map<string, string>)
    ensures !fetch.Fetched? ==> m == map[]
    ensures fetch.Fetched? ==> m.Keys == fetch.usage.Keys
    ensures fetch.Fetched? ==> forall k :: k in fetch.usage ==>
      m[k] == (if fetch.usage[k].Some? then fetch.usage[k].value else "")
  {
    match fetch
      case Fetched(u) => map k | k in u :: u[k].GetOr("")
      case _ => map[]
  }

  /** The sorted table holding exactly the mapping `m`. The choice of key
      does not matter: `SortedUnique` makes the table unique. */
  ghost function TableOf(m: map<string, string>): (t: Entries)
    ensures Sorted(t) && ToMap(t) == m
    decreases |m|
  {
    if m == map[] then []
    else
      var k :| k in m;
      Put(TableOf(m - {k}), k, m[k])
  }

  /** Sorted tables holding the same mapping are identical: the usage table
      does not depend on the order the fetched map hands out its keys. */
  lemma TableOfUnique(t: Entries, m: map<string, string>)
    requires Sorted(t) && ToMap(t) == m
    ensures t == TableOf(m)
  {
    SortedUnique(t, TableOf(m));
  }

  /** `initResourceUsageMap`: fills a key-sorted table from the fetched
      usage map, one entry at a time. */
  method InitResourceUsageMap(fetch: UsageFetch) returns (usage: Entries)
    ensures Sorted(usage) && ToMap(usage) == UsageContents(fetch)
    ensures usage == TableOf(UsageContents(fetch))
    ensures usage == [] <==> !fetch.Fetched? || fetch.usage == map[]
  {
    if !fetch.Fetched? || fetch.usage == map[] {
      assert UsageContents(fetch) == map[];
      return [];
    }
    var u := fetch.usage;
    usage := [];
    var pending := u.Keys;
    while pending != {}
      invariant pending <= u.Keys
      invariant Sorted(usage)
      invariant ToMap(usage) == map k | k in u.Keys - pending :: u[k].GetOr("")
      decreases pending
    {
      var key :| key in pending;
      ghost var before := ToMap(usage);
      usage := Put(usage, key, u[key].GetOr(""));
      pending := pending - {key};
      assert ToMap(usage) == before[key := u[key].GetOr("")];
    }
    assert u.Keys - pending == u.Keys;
    assert ToMap(usage) == UsageContents(fetch);
    TableOfUnique(usage, UsageContents(fetch));
    assert usage != [] by {
      var k :| k in u;
      assert k in ToMap(usage);
    }
  }

  /** The keys `logUsageStats` looks up. */
  const CpuKey: string := "cpu"
  const StartTimeKey: string := "start_time"
  const SubmissionTimeKey: string := "submission_time"
  const MaxVmemKey: string := "maxvmem"

  /** `logUsageStats(Builder, Map)`: attaches the table and reads the typed
      fields whose keys are present. A present cpu or time key overwrites
      its field even when the value does not parse; a memory value is
      recorded only when it parses. Nothing else in the status changes. */
  function LogUsageStats(p: UsageParsers, b: JobStatus, usage: Entries): (r: JobStatus)
    ensures r.(resourceUsage := b.resourceUsage, cpuTime := b.cpuTime, startTime := b.startTime,
               submitTime := b.submitTime, memory := b.memory) == b
    ensures r.resourceUsage == Some(usage)
    ensures var m := ToMap(usage);
      && (CpuKey !in m ==> r.cpuTime == b.cpuTime)
      && (CpuKey in m ==> r.cpuTime == AsCpuTime(p, m[CpuKey]))
      && (StartTimeKey !in m ==> r.startTime == b.startTime)
      && (StartTimeKey in m ==> r.startTime == ParseDate(p, m[StartTimeKey]))
      && (SubmissionTimeKey !in m ==> r.submitTime == b.submitTime)
      && (SubmissionTimeKey in m ==> r.submitTime == ParseDate(p, m[SubmissionTimeKey]))
    ensures b.memory.Some? ==> r.memory.Some?
    ensures MaxVmemKey in ToMap(usage) && ParseMemory(p, ToMap(usage)[MaxVmemKey]).Some? ==>
      r.memory == ParseMemory(p, ToMap(usage)[MaxVmemKey])
    ensures r.memory != b.memory ==>
      MaxVmemKey in ToMap(usage) && r.memory == ParseMemory(p, ToMap(usage)[MaxVmemKey]) && r.memory.Some?
  {
    var m := ToMap(usage);
    var b1 := b.(resourceUsage := Some(usage));
    var b2 := if CpuKey in m then b1.(cpuTime := AsCpuTime(p, m[CpuKey])) else b1;
    var b3 := if StartTimeKey in m then b2.(startTime := ParseDate(p, m[StartTimeKey])) else b2;
    var b4 := if SubmissionTimeKey in m then b3.(submitTime := ParseDate(p, m[SubmissionTimeKey])) else b3;
    if MaxVmemKey in m && ParseMemory(p, m[MaxVmemKey]).Some? then
      b4.(memory := ParseMemory(p, m[MaxVmemKey]))
    else b4
  }

  /** A failed, null or empty usage fetch attaches an empty table and
      leaves every typed field as it was. */
  lemma LogUsageStatsOfNothing(p: UsageParsers, b: JobStatus, fetch: UsageFetch)
    requires !fetch.Fetched? || fetch.usage == map[]
    ensures LogUsageStats(p, b, TableOf(UsageContents(fetch))) == b.(resourceUsage := Some([]))
  {
    assert UsageContents(fetch) == map[];
    TableOfUnique([], map[]);
  }

  /** The example record of the source comment: with a parser that reads
      the decimals exactly, cpu time, start time and submission time come
      out in milliseconds and the byte count becomes gigabytes. */
  lemma UsageStatsExample(p: UsageParsers, b: JobStatus)
    requires p.tryParseDouble("2720.2300") == Some(2720.23)
    requires p.tryParseDouble("1440658419871.0000") == Some(1440658419871.0)
    requires p.tryParseDouble("1440658209738.0000") == Some(1440658209738.0)
    requires p.tryParseDouble("1473015808.0000") == Some(1473015808.0)
    ensures var usage := TableOf(map[
        CpuKey := "2720.2300", StartTimeKey := "1440658419871.0000",
        SubmissionTimeKey := "1440658209738.0000", MaxVmemKey := "1473015808.0000"]);
      var r := LogUsageStats(p, b, usage);
      r.cpuTime == Some(2720230) && r.startTime == Some(1440658419871)
      && r.submitTime == Some(1440658209738)
      && r.memory == Some(Memory(1473015808.0 / BytesPerGb as real))
  {
    assert Round(2720.23 * 1000.0) == 2720230;
    assert Floor(1440658419871.0) == 1440658419871;
    assert Floor(1440658209738.0) == 1440658209738;
    assert Floor(1473015808.0) == 1473015808;
  }
}
