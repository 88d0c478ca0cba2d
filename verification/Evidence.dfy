/** internal/state: partitions of module-owned knowledge and references into it. */
module Evidence {
  import opened JsonValues

  datatype Failure = Failure(kind: string, code: string, event: nat)

  datatype ProgressRecord = ProgressRecord(id: string, task: nat, kind: string, status: string, summary: string,
                                           factReference: string, knowledgeVersion: nat)

  datatype Metadata = Metadata(version: nat, lastProcessed: nat, lastUpdate: nat, stale: bool, failures: nat,
                               lastError: Maybe<Failure>)

  datatype Partition = Partition(metadata: Metadata, value: Json, progress: seq<ProgressRecord>)

  type Knowledge = map<string, Partition>

  datatype EvidenceReference = EvidenceReference(partition: string, version: nat, path: string)

  const MAX_PATH := 256

  /** The value a reference names, in partitions that are neither stale nor of another version. */
  function Resolve(k: Knowledge, r: EvidenceReference): Maybe<Json> {
    if r.partition !in k || k[r.partition].metadata.stale || k[r.partition].metadata.version != r.version then Nothing
    else Evaluate(k[r.partition].value, r.path)
  }

  /** Strict evaluation: the path is a pointer of bounded length with well-formed escapes. */
  function Evaluate(v: Json, path: string): Maybe<Json> {
    if path != "" && (path[0] != '/' || |path| > MAX_PATH || exists p <- Parts(path) :: !EscapesOk(p)) then Nothing
    else At(v, Parts(path))
  }

  /** What time does to knowledge: versions only rise, and a version has one value. */
  ghost predicate Later(a: Knowledge, b: Knowledge) {
    a.Keys == b.Keys &&
    forall name <- a.Keys ::
      && a[name].metadata.version <= b[name].metadata.version
      && (a[name].metadata.version == b[name].metadata.version ==> a[name].value == b[name].value)
  }

  lemma LaterTransitive(a: Knowledge, b: Knowledge, c: Knowledge)
    requires Later(a, b) && Later(b, c)
    ensures Later(a, c)
  {
  }

  /** A reference that resolves in two states of a run gives one value. */
  lemma ReferenceIsStable(a: Knowledge, b: Knowledge, r: EvidenceReference)
    requires Later(a, b) && Resolve(a, r).Just? && Resolve(b, r).Just?
    ensures Resolve(a, r) == Resolve(b, r)
  {
  }
}
