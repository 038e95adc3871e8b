/** Scenario requests and the checks the API makes on them
    (internal/workload/types.go), and the worker's generator table
    (cmd/worker/main.go, buildGenerators). */
module Workload {
  import opened Basics

  const CPU_BURN := "cpu_burn"
  const MEM_ALLOC := "mem_alloc"
  const DB_WRITE := "db_write"
  const DB_READ := "db_read"
  const MIXED := "mixed"

  /** The duration is a Go time.Duration: a signed 64-bit count of nanoseconds. */
  newtype Nanoseconds = n: int | -0x8000_0000_0000_0000 <= n <= 0x7FFF_FFFF_FFFF_FFFF

  datatype LoadProfile = LoadProfile(
    rps: int,
    duration: Nanoseconds,
    payloadSizeBytes: int,
    concurrency: int,
    targetQueue: string,
    workloadType: string)

  datatype ScenarioRequest = ScenarioRequest(name: string, profile: LoadProfile)

  datatype ProfileError =
    | BadRps | BadDuration | BadPayloadSize | BadConcurrency | NoTargetQueue | BadWorkloadType | NoName

  function ValidateProfile(p: LoadProfile): Option<ProfileError> {
    if p.rps <= 0 then Some(BadRps)
    else if p.duration <= 0 then Some(BadDuration)
    else if p.payloadSizeBytes < 0 then Some(BadPayloadSize)
    else if p.concurrency <= 0 then Some(BadConcurrency)
    else if p.targetQueue == "" then Some(NoTargetQueue)
    else if p.workloadType == CPU_BURN || p.workloadType == MEM_ALLOC || p.workloadType == DB_WRITE
            || p.workloadType == DB_READ || p.workloadType == MIXED then None
    else Some(BadWorkloadType)
  }

  function ValidateRequest(r: ScenarioRequest): Option<ProfileError> {
    if r.name == "" then Some(NoName) else ValidateProfile(r.profile)
  }

  predicate Admitted(r: ScenarioRequest) { ValidateRequest(r).None? }

  datatype GeneratorKind = CpuGenerator | MemoryGenerator | DbWriteGenerator | DbReadGenerator | MixedGenerator

  /** The worker's table from workload type to generator. */
  function BuildGenerators(): map<string, GeneratorKind> {
    map[
      CPU_BURN := CpuGenerator,
      MEM_ALLOC := MemoryGenerator,
      DB_WRITE := DbWriteGenerator,
      DB_READ := DbReadGenerator,
      MIXED := MixedGenerator
    ]
  }

  predicate Runnable(workloadType: string) { workloadType in BuildGenerators() }

  /** The API lets a workload type through exactly when the worker can run it. */
  lemma AdmittedTypesAreRunnable(workloadType: string)
    ensures Runnable(workloadType) <==>
            exists r: ScenarioRequest :: r.profile.workloadType == workloadType && Admitted(r)
  {
    if Runnable(workloadType) {
      var r := ScenarioRequest("s", LoadProfile(1, 1, 0, 1, "workload.high", workloadType));
      assert Admitted(r);
    }
  }

  /** What the API admits, guard by guard. */
  lemma AdmittedMeans(r: ScenarioRequest)
    ensures Admitted(r) <==>
            && r.name != "" && r.profile.rps > 0 && r.profile.duration as int > 0 && r.profile.payloadSizeBytes >= 0
            && r.profile.concurrency > 0 && r.profile.targetQueue != ""
            && r.profile.workloadType in {"cpu_burn", "mem_alloc", "db_write", "db_read", "mixed"}
  {
  }

  /** Which generator runs which workload type. */
  lemma GeneratorOfType(workloadType: string)
    ensures Runnable(workloadType) <==> workloadType in {"cpu_burn", "mem_alloc", "db_write", "db_read", "mixed"}
    ensures var table := BuildGenerators();
            && "cpu_burn" in table && table["cpu_burn"] == CpuGenerator
            && "mem_alloc" in table && table["mem_alloc"] == MemoryGenerator
            && "db_write" in table && table["db_write"] == DbWriteGenerator
            && "db_read" in table && table["db_read"] == DbReadGenerator
            && "mixed" in table && table["mixed"] == MixedGenerator
  {
    assert |CPU_BURN| == 8 && |MEM_ALLOC| == 9 && |DB_WRITE| == 8 && |DB_READ| == 7 && |MIXED| == 5;
    assert CPU_BURN[0] == 'c' && DB_WRITE[0] == 'd';
  }
}
