/** Session setup: the persistence record read at start, the resolution of
    each session parameter through its fallback chain, the seen questions the
    session starts from, and the lazy creation of the regression dataset. */
module Setup {
  import opened Values

  /** The persistence file's JSON object, seen through the two keys the session
      reads and writes; `otherKeys` counts any further keys, which are carried
      along unchanged. */
  datatype Record = Record(datasetId: Option<Value>, questions: Option<seq<string>>, otherKeys: nat)

  const EmptyRecord: Record := Record(None, None, 0)

  /** Python truthiness of a dict: it holds at least one key. */
  predicate NonEmpty(r: Record) {
    r.datasetId.Some? || r.questions.Some? || r.otherKeys > 0
  }

  /** The record the session starts from: the file's content when a path is set
      and the file exists (`file` is None for a missing file), `{}` otherwise. */
  function Load(hasPath: bool, file: Option<Record>): (r: Record)
    ensures hasPath && file.Some? ==> r == file.value
    ensures hasPath && file.None? ==> r == EmptyRecord
    ensures !hasPath ==> r == EmptyRecord
    ensures NonEmpty(r) ==> hasPath && file == Some(r)
  {
    if hasPath && file.Some? then file.value else EmptyRecord
  }

  /** The seen questions the session starts from. The source reads them only
      from a non-empty record; since an empty record has no such key, that
      is the same as reading the key with `[]` as its default. */
  function LoadSeen(p: Record): (seen: seq<string>)
    ensures seen == p.questions.GetOr([])
  {
    if NonEmpty(p) then p.questions.GetOr([]) else []
  }

  /** Python's `m.get(key, default)`. */
  function Get(m: map<string, Value>, key: string, default: Value): Value {
    if key in m then m[key] else default
  }

  /** The default of every numeric parameter. */
  const Default: Value := Int(10)

  /** A numeric parameter: `arg or config.get(key, 10)`. A falsy argument
      (absent, or 0) falls through to the configuration, whose value is taken
      as it is, falsy or not. */
  function ResolveCount(arg: Value, config: map<string, Value>, key: string): (r: Value)
    ensures Truthy(arg) ==> r == arg
    ensures !Truthy(arg) ==> r == Get(config, key, Default)
  {
    OrChainIsFirstTruthy([arg, Get(config, key, Default)]);
    OrChain([arg, Get(config, key, Default)])
  }

  /** The dataset id: `arg or config.get('dataset_id') or persistence.get('dataset_id')`,
      the first truthy of the three, or the persisted value (possibly None) when
      none is truthy. */
  function ResolveDatasetId(arg: Value, config: map<string, Value>, p: Record): (r: Value)
    ensures Truthy(arg) ==> r == arg
    ensures !Truthy(arg) && Truthy(Get(config, "dataset_id", Null)) ==> r == Get(config, "dataset_id", Null)
    ensures !Truthy(arg) && !Truthy(Get(config, "dataset_id", Null)) ==> r == p.datasetId.GetOr(Null)
  {
    var chain := [arg, Get(config, "dataset_id", Null), p.datasetId.GetOr(Null)];
    OrChainIsFirstTruthy(chain);
    OrChain(chain)
  }

  /** The command-line arguments, each Null when not given. */
  datatype Args = Args(datasetId: Value, n: Value, maxConcurrency: Value, maxSimilarity: Value)

  /** The resolved session parameters. */
  datatype Settings = Settings(datasetId: Value, n: Value, maxConcurrency: Value, maxSimilarity: Value)

  /** All four parameters, each through its own fallback chain: a truthy
      argument wins, a falsy one defers to the configuration (and, for the
      dataset id, then to the record). */
  function Resolve(args: Args, config: map<string, Value>, p: Record): (r: Settings)
    ensures Truthy(args.datasetId) ==> r.datasetId == args.datasetId
    ensures !Truthy(args.datasetId) && Truthy(Get(config, "dataset_id", Null)) ==> r.datasetId == Get(config, "dataset_id", Null)
    ensures !Truthy(args.datasetId) && !Truthy(Get(config, "dataset_id", Null)) ==> r.datasetId == p.datasetId.GetOr(Null)
    ensures r.n == (if Truthy(args.n) then args.n else Get(config, "n", Default))
    ensures r.maxConcurrency == (if Truthy(args.maxConcurrency) then args.maxConcurrency else Get(config, "max_concurrency", Default))
    ensures r.maxSimilarity == (if Truthy(args.maxSimilarity) then args.maxSimilarity else Get(config, "max_similarity", Default))
  {
    Settings(ResolveDatasetId(args.datasetId, config, p),
             ResolveCount(args.n, config, "n"),
             ResolveCount(args.maxConcurrency, config, "max_concurrency"),
             ResolveCount(args.maxSimilarity, config, "max_similarity"))
  }

  /** An argument of 0 is falsy and so behaves exactly like an absent one. */
  lemma ZeroArgumentFallsThrough(args: Args, config: map<string, Value>, p: Record)
    requires args.n == Int(0) && args.maxConcurrency == Int(0) && args.maxSimilarity == Int(0)
    ensures Resolve(args, config, p) == Resolve(Args(args.datasetId, Null, Null, Null), config, p)
  {
  }

  /** A parameter given nowhere resolves to its default of 10. */
  lemma UnsetCountIsDefault(arg: Value, config: map<string, Value>, key: string)
    requires !Truthy(arg) && key !in config
    ensures ResolveCount(arg, config, key) == Int(10)
  {
  }

  /** The outcome of the lazy dataset step: the id the session uses, the id of
      a dataset it created (if any), its in-memory record, and whether that
      record was written back to the file. */
  datatype DatasetStep = DatasetStep(id: Value, created: Option<string>, record: Record, written: bool)

  /** A dataset is created only when no id resolved (None, not merely falsy);
      the created id is written into the record, and the record to the file,
      only when the loaded record was non-empty. */
  function EnsureDataset(resolved: Value, freshId: string, p: Record): (d: DatasetStep)
    ensures d.created.Some? <==> resolved == Null
    ensures d.id != Null
    ensures resolved != Null ==> d.id == resolved
    ensures d.created.Some? ==> d.id == Str(d.created.value) && d.created.value == freshId
    ensures d.written <==> d.created.Some? && NonEmpty(p)
    ensures d.record.questions == p.questions && d.record.otherKeys == p.otherKeys
    ensures d.record.datasetId == if d.written then Some(d.id) else p.datasetId
  {
    if resolved == Null then
      if NonEmpty(p) then DatasetStep(Str(freshId), Some(freshId), p.(datasetId := Some(Str(freshId))), true)
      else DatasetStep(Str(freshId), Some(freshId), p, false)
    else DatasetStep(resolved, None, p, false)
  }

  /** A record that holds a dataset id (any value but None) never leads to a
      second dataset, whatever the arguments and configuration say. */
  lemma StoredIdPreventsCreation(arg: Value, config: map<string, Value>, p: Record, freshId: string)
    requires p.datasetId.Some? && p.datasetId.value != Null
    ensures EnsureDataset(ResolveDatasetId(arg, config, p), freshId, p).created.None?
  {
  }

  /** A session that creates a dataset while its loaded record is non-empty
      stores the new id, so a later session reading that record (or any later
      state of it that keeps the id) reuses it instead of creating another. */
  lemma {:induction false} RestartReusesDataset(
    args1: Value, config1: map<string, Value>, p: Record, fresh1: string,
    args2: Value, config2: map<string, Value>, q: Record, fresh2: string)
    requires NonEmpty(p)
    requires ResolveDatasetId(args1, config1, p) == Null
    requires q.datasetId == EnsureDataset(ResolveDatasetId(args1, config1, p), fresh1, p).record.datasetId
    ensures EnsureDataset(ResolveDatasetId(args1, config1, p), fresh1, p).created == Some(fresh1)
    ensures EnsureDataset(ResolveDatasetId(args2, config2, q), fresh2, q).created.None?
  {
    StoredIdPreventsCreation(args2, config2, q, fresh2);
  }

  /** When the loaded record is empty (no path, or a missing file) a created id
      is not stored, so the next session from the same empty record creates
      yet another dataset. */
  lemma EmptyRecordLosesDatasetId(freshId: string, nextId: string)
    ensures EnsureDataset(ResolveDatasetId(Null, map[], EmptyRecord), freshId, EmptyRecord).record == EmptyRecord
    ensures EnsureDataset(ResolveDatasetId(Null, map[], EmptyRecord), nextId, EmptyRecord).created == Some(nextId)
  {
  }
}
