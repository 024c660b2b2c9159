/**
 Uploading files one by one, running the ingest flow on each and deleting it again, then syncing
 with a map that sends each upload back to the host path it came from.
*/
module LangflowIngest {
  import opened Wrappers
  import opened DocumentTable
  import opened LangflowMapping
  import Text

  datatype UploadedFile = UploadedFile(id: string, path: string)

  /** How the Files and Flow APIs answer for one file. */
  datatype Reply = Reply(upload: Option<UploadedFile>, runOk: bool, deleteOk: bool)

  datatype Call =
    | Upload(file: string)
    | RunFlow(uploadedPath: string)
    | Delete(id: string)
    | SyncChunks(overrides: map<string, string>)

  datatype IngestError = LangflowApiError | SyncFailed

  /** The resolved files, the host source of each, and the API's answer for each. */
  datatype Plan = Plan(files: seq<string>, hostOf: string -> string, replies: seq<Reply>) {
    ghost predicate Valid() {
      |replies| == |files|
    }

    function Host(i: nat): string
      requires i < |files|
    {
      hostOf(files[i])
    }

    /** The basename that exactly one of the files has. */
    predicate UniqueName(i: nat)
      requires i < |files|
    {
      forall j | 0 <= j < |files| && j != i :: Text.BaseName(files[j]) != Text.BaseName(files[i])
    }

    predicate Succeeds(i: nat)
      requires i < |replies|
    {
      replies[i].upload.Some? && replies[i].runOk && replies[i].deleteOk
    }

    predicate Writes(i: nat, key: string)
      requires i < |files| == |replies|
    {
      && replies[i].upload.Some?
      && var path := replies[i].upload.value.path;
      || key == path
      || (UniqueName(i) && (key == Text.BaseName(files[i]) || key == Text.BaseName(path)))
    }
  }

  function AddOverrides(plan: Plan, i: nat, uploaded: UploadedFile, overrides: map<string, string>): map<string, string>
    requires i < |plan.files|
  {
    var host := plan.Host(i);
    var direct := overrides[uploaded.path := host];
    if plan.UniqueName(i) then direct[Text.BaseName(plan.files[i]) := host][Text.BaseName(uploaded.path) := host]
    else direct
  }

  /** The override map after the first `n` files. */
  function Overrides(plan: Plan, n: nat): map<string, string>
    requires plan.Valid() && n <= |plan.files|
    requires forall i | 0 <= i < n :: plan.Succeeds(i)
  {
    if n == 0 then map[]
    else
      assert plan.Succeeds(n - 1);
      AddOverrides(plan, n - 1, plan.replies[n - 1].upload.value, Overrides(plan, n - 1))
  }

  /** The calls made for one file: an upload that worked is always followed by a run and a delete. */
  function CallsFor(plan: Plan, i: nat): seq<Call>
    requires plan.Valid() && i < |plan.files|
  {
    match plan.replies[i].upload
    case None => [Upload(plan.files[i])]
    case Some(uploaded) => [Upload(plan.files[i]), RunFlow(uploaded.path), Delete(uploaded.id)]
  }

  /** The number of files that succeed before the first failure. */
  function Prefix(plan: Plan, n: nat): (p: nat)
    requires plan.Valid() && n <= |plan.files|
    ensures p <= n
    ensures forall i | 0 <= i < p :: plan.Succeeds(i)
    ensures p < n ==> !plan.Succeeds(p)
  {
    if n == 0 then 0
    else if Prefix(plan, n - 1) == n - 1 && plan.Succeeds(n - 1) then n
    else Prefix(plan, n - 1)
  }

  function CallsUpTo(plan: Plan, n: nat): seq<Call>
    requires plan.Valid() && n <= |plan.files|
  {
    if n == 0 then [] else CallsUpTo(plan, n - 1) + CallsFor(plan, n - 1)
  }

  ghost function Trace(plan: Plan, withSync: bool): seq<Call>
    requires plan.Valid()
  {
    var p := Prefix(plan, |plan.files|);
    if p < |plan.files| then CallsUpTo(plan, p + 1)
    else CallsUpTo(plan, p) + if withSync then [SyncChunks(Overrides(plan, p))] else []
  }

  /** One file: the delete runs whether or not the flow did. */
  method IngestFile(plan: Plan, i: nat, log: seq<Call>) returns (longer: seq<Call>, uploaded: Option<UploadedFile>)
    requires plan.Valid() && i < |plan.files|
    ensures longer == log + CallsFor(plan, i)
    ensures uploaded == if plan.Succeeds(i) then plan.replies[i].upload else None
  {
    longer := log + [Upload(plan.files[i])];
    uploaded := plan.replies[i].upload;
    if uploaded.Some? {
      longer := longer + [RunFlow(uploaded.value.path)];
      longer := longer + [Delete(uploaded.value.id)];
      if !plan.replies[i].runOk || !plan.replies[i].deleteOk {
        uploaded := None;
      }
    }
  }

  /** The host paths of the first `n` files, each mapped to itself. */
  ghost predicate MapsHosts(plan: Plan, n: nat, reported: map<string, string>)
    requires n <= |plan.files|
  {
    && (forall i | 0 <= i < n :: plan.Host(i) in reported)
    && (forall h | h in reported :: reported[h] == h && exists i | 0 <= i < n :: plan.Host(i) == h)
  }

  function HostMap(plan: Plan, n: nat): map<string, string>
    requires n <= |plan.files|
  {
    if n == 0 then map[] else HostMap(plan, n - 1)[plan.Host(n - 1) := plan.Host(n - 1)]
  }

  /** The reported map has the host path of each file, mapped to itself, and nothing else. */
  lemma {:induction false} HostMapMapsHosts(plan: Plan, n: nat)
    requires n <= |plan.files|
    ensures MapsHosts(plan, n, HostMap(plan, n))
  {
    if n > 0 {
      HostMapMapsHosts(plan, n - 1);
    }
  }

  /** One turn of the loop, for a file that went through. */
  method RecordHost(plan: Plan, i: nat, uploaded: UploadedFile, reported: map<string, string>,
                    overrides: map<string, string>)
    returns (nowReported: map<string, string>, nowOverrides: map<string, string>)
    requires plan.Valid() && i < |plan.files| && forall j | 0 <= j <= i :: plan.Succeeds(j)
    requires plan.replies[i].upload == Some(uploaded)
    requires reported == HostMap(plan, i) && overrides == Overrides(plan, i)
    ensures nowReported == HostMap(plan, i + 1) && nowOverrides == Overrides(plan, i + 1)
  {
    var host := plan.Host(i);
    nowReported := reported[host := host];
    nowOverrides := AddOverrides(plan, i, uploaded, overrides);
    OverridesStep(plan, i);
  }

  /** The loop of `ingest_files`; without maps, a file failed. */
  method IngestAll(plan: Plan) returns (log: seq<Call>, maps: Option<(map<string, string>, map<string, string>)>)
    requires plan.Valid()
    ensures log == Trace(plan, false)
    ensures maps.Some? <==> AllSucceed(plan)
    ensures maps.Some? ==> maps.value == (HostMap(plan, |plan.files|), Overrides(plan, |plan.files|))
  {
    log := [];
    var reported, overrides: map<string, string> := map[], map[];
    for i := 0 to |plan.files|
      invariant forall j | 0 <= j < i :: plan.Succeeds(j)
      invariant log == CallsUpTo(plan, i)
      invariant reported == HostMap(plan, i) && overrides == Overrides(plan, i)
    {
      var uploaded;
      log, uploaded := IngestFile(plan, i, log);
      if uploaded.None? {
        FailureTrace(plan, i);
        return log, None;
      }
      reported, overrides := RecordHost(plan, i, uploaded.value, reported, overrides);
    }
    SuccessTrace(plan);
    maps := Some((reported, overrides));
  }

  lemma OverridesStep(plan: Plan, i: nat)
    requires plan.Valid() && i < |plan.files| && forall j | 0 <= j < i :: plan.Succeeds(j)
    requires plan.Succeeds(i)
    ensures Overrides(plan, i + 1) == AddOverrides(plan, i, plan.replies[i].upload.value, Overrides(plan, i))
  {}

  datatype Report = Report(files: nat, sourceOverrides: map<string, string>, imported: nat)

  /** `ingest_files`; `sync` is what the callback answers when there is one, None if it raises. */
  method IngestFiles(plan: Plan, withSync: bool, sync: Option<nat>)
    returns (log: seq<Call>, outcome: Result<Report, IngestError>)
    requires plan.Valid()
    ensures log == Trace(plan, withSync)
    ensures match outcome
            case Err(LangflowApiError) => !AllSucceed(plan)
            case Err(SyncFailed) => AllSucceed(plan) && withSync && sync.None?
            case Ok(report) =>
              && AllSucceed(plan) && (withSync ==> sync.Some?)
              && report.files == |plan.files| && report.imported == (if withSync then sync.value else 0)
              && report.sourceOverrides == HostMap(plan, |plan.files|)
  {
    var maps;
    log, maps := IngestAll(plan);
    if maps.None? {
      return log, Err(LangflowApiError);
    }
    var imported := 0;
    if withSync {
      SuccessTrace(plan);
      log := log + [SyncChunks(maps.value.1)];
      if sync.None? {
        return log, Err(SyncFailed);
      }
      imported := sync.value;
    }
    outcome := Ok(Report(|plan.files|, maps.value.0, imported));
  }

  lemma FailureTrace(plan: Plan, i: nat)
    requires plan.Valid() && i < |plan.files|
    requires (forall j | 0 <= j < i :: plan.Succeeds(j)) && !plan.Succeeds(i)
    ensures Trace(plan, false) == CallsUpTo(plan, i) + CallsFor(plan, i) && !AllSucceed(plan)
  {}

  lemma SuccessTrace(plan: Plan)
    requires plan.Valid() && forall j | 0 <= j < |plan.files| :: plan.Succeeds(j)
    ensures Trace(plan, false) == CallsUpTo(plan, |plan.files|) && AllSucceed(plan)
    ensures Trace(plan, true) == CallsUpTo(plan, |plan.files|) + [SyncChunks(Overrides(plan, |plan.files|))]
  {}

  // ---------------------------------------------------------------- the trace

  /** Whatever was uploaded is deleted two calls later, right after the flow ran on it. */
  ghost predicate UploadsAreCleanedUp(plan: Plan, log: seq<Call>)
    requires plan.Valid()
  {
    forall j | 0 <= j < |log| && log[j].Upload? ::
      exists i | 0 <= i < |plan.files| :: log[j].file == plan.files[i] && Handled(plan, log, j, i)
  }

  ghost predicate Handled(plan: Plan, log: seq<Call>, j: nat, i: nat)
    requires plan.Valid() && i < |plan.files|
  {
    match plan.replies[i].upload
    case None => j + 1 == |log|
    case Some(uploaded) =>
      j + 2 < |log| && log[j + 1] == RunFlow(uploaded.path) && log[j + 2] == Delete(uploaded.id)
  }

  lemma {:induction false} CallsAreCleanedUp(plan: Plan, n: nat)
    requires plan.Valid() && n <= |plan.files|
    requires forall i | 0 <= i < n - 1 :: plan.Succeeds(i)
    ensures UploadsAreCleanedUp(plan, CallsUpTo(plan, n))
    ensures forall call | call in CallsUpTo(plan, n) :: !call.SyncChunks?
  {
    if n > 0 {
      CallsAreCleanedUp(plan, n - 1);
      var before, calls := CallsUpTo(plan, n - 1), CallsFor(plan, n - 1);
      var log := before + calls;
      forall j | 0 <= j < |log| && log[j].Upload?
        ensures exists i | 0 <= i < |plan.files| :: log[j].file == plan.files[i] && Handled(plan, log, j, i)
      {
        if j < |before| {
          var i :| 0 <= i < |plan.files| && before[j].file == plan.files[i] && Handled(plan, before, j, i);
          CallsEndWithDelete(plan, n - 1);
          assert Handled(plan, log, j, i);
        } else {
          assert Handled(plan, log, j, n - 1);
        }
      }
    }
  }

  lemma {:induction false} CallsEndWithDelete(plan: Plan, n: nat)
    requires plan.Valid() && n <= |plan.files|
    requires forall i | 0 <= i < n :: plan.Succeeds(i)
    ensures CallsUpTo(plan, n) != [] ==> CallsUpTo(plan, n)[|CallsUpTo(plan, n)| - 1].Delete?
  {
    if n > 0 {
      assert plan.Succeeds(n - 1);
    }
  }

  lemma SyncedTraceIsCleanedUp(plan: Plan, calls: seq<Call>, last: Call)
    requires plan.Valid() && UploadsAreCleanedUp(plan, calls) && last.SyncChunks?
    requires calls != [] ==> calls[|calls| - 1].Delete?
    ensures UploadsAreCleanedUp(plan, calls + [last])
  {
    var log := calls + [last];
    forall j | 0 <= j < |log| && log[j].Upload?
      ensures exists i | 0 <= i < |plan.files| :: log[j].file == plan.files[i] && Handled(plan, log, j, i)
    {
      assert log[j] == calls[j];
      var i :| 0 <= i < |plan.files| && calls[j].file == plan.files[i] && Handled(plan, calls, j, i);
      assert Handled(plan, log, j, i);
    }
  }

  lemma SyncIsLast(calls: seq<Call>, last: Call)
    requires last.SyncChunks? && forall call | call in calls :: !call.SyncChunks?
    ensures var log := calls + [last];
            && last in log
            && forall j | 0 <= j < |log| && log[j].SyncChunks? :: j == |log| - 1
  {
    assert forall j | 0 <= j < |calls| :: (calls + [last])[j] == calls[j] && calls[j] in calls;
    assert (calls + [last])[|calls|] == last;
  }

  /**
   For every pattern of API failures: each upload that worked is run and deleted, and the sync
   happens once, last, and exactly when every file went through.
  */
  lemma TraceIsSafe(plan: Plan, withSync: bool)
    requires plan.Valid()
    ensures var log := Trace(plan, withSync);
            && UploadsAreCleanedUp(plan, log)
            && ((exists call :: call in log && call.SyncChunks?) <==> withSync && AllSucceed(plan))
            && (forall j | 0 <= j < |log| && log[j].SyncChunks? :: j == |log| - 1)
  {
    var n := |plan.files|;
    var p := Prefix(plan, n);
    if p < n {
      CallsAreCleanedUp(plan, p + 1);
    } else {
      CallsAreCleanedUp(plan, n);
      CallsEndWithDelete(plan, n);
      if withSync {
        SyncedTraceIsCleanedUp(plan, CallsUpTo(plan, n), SyncChunks(Overrides(plan, n)));
        SyncIsLast(CallsUpTo(plan, n), SyncChunks(Overrides(plan, n)));
      }
    }
  }

  // ---------------------------------------------------------------- the override map

  /** The last of the first `n` files to write `key`, or -1. */
  function LastWriter(plan: Plan, key: string, n: nat): (i: int)
    requires plan.Valid() && n <= |plan.files|
    ensures -1 <= i < n
    ensures i >= 0 ==> plan.Writes(i, key)
    ensures forall j | i < j < n :: !plan.Writes(j, key)
  {
    if n == 0 then -1 else if plan.Writes(n - 1, key) then n - 1 else LastWriter(plan, key, n - 1)
  }

  lemma {:induction false} OverrideIsLastWriters(plan: Plan, key: string, n: nat)
    requires plan.Valid() && n <= |plan.files|
    requires forall i | 0 <= i < n :: plan.Succeeds(i)
    ensures key in Overrides(plan, n) <==> LastWriter(plan, key, n) >= 0
    ensures key in Overrides(plan, n) ==> Overrides(plan, n)[key] == plan.Host(LastWriter(plan, key, n))
  {
    if n > 0 {
      assert plan.Succeeds(n - 1);
      OverrideIsLastWriters(plan, key, n - 1);
    }
  }

  ghost predicate AllSucceed(plan: Plan) {
    plan.Valid() && forall i | 0 <= i < |plan.files| :: plan.Succeeds(i)
  }

  ghost function UploadPath(plan: Plan, i: nat): string
    requires AllSucceed(plan) && i < |plan.files|
  {
    assert plan.Succeeds(i);
    plan.replies[i].upload.value.path
  }

  /**
   A chunk that carries file `i`'s uploaded path goes to file `i`'s host path exactly when the
   last file to write that key has the same host path.
  */
  lemma UploadedChunkGoesHomeIff(plan: Plan, i: nat, chunk: MappedChunk)
    requires AllSucceed(plan) && i < |plan.files| && chunk.source == UploadPath(plan, i)
    ensures LastWriter(plan, chunk.source, |plan.files|) >= i
    ensures OverrideSource(chunk, Overrides(plan, |plan.files|)) == plan.Host(i) <==>
            plan.Host(LastWriter(plan, chunk.source, |plan.files|)) == plan.Host(i)
  {
    assert plan.Succeeds(i);
    assert plan.Writes(i, chunk.source);
    OverrideIsLastWriters(plan, chunk.source, |plan.files|);
    assert SourceKeys(chunk)[0] == chunk.source;
  }

  /** Uploaded paths as Langflow hands them out: all different, and inside a directory. */
  ghost predicate ProperUploads(plan: Plan) {
    && AllSucceed(plan)
    && (forall i | 0 <= i < |plan.files| :: '/' in UploadPath(plan, i))
    && forall i, j | 0 <= i < j < |plan.files| :: UploadPath(plan, i) != UploadPath(plan, j)
  }

  /** A key with a slash in it is nobody's basename, so a file writes no other file's path. */
  lemma OnlyOwnPathWritten(plan: Plan, i: nat, j: nat)
    requires ProperUploads(plan) && i < j < |plan.files|
    ensures !plan.Writes(j, UploadPath(plan, i))
  {
    assert UploadPath(plan, i) != UploadPath(plan, j);
  }

  /** With proper upload paths every uploaded chunk goes home, however many basenames collide. */
  lemma UploadedChunkGoesHome(plan: Plan, i: nat, chunk: MappedChunk)
    requires ProperUploads(plan) && i < |plan.files| && chunk.source == UploadPath(plan, i)
    ensures OverrideSource(chunk, Overrides(plan, |plan.files|)) == plan.Host(i)
  {
    UploadedChunkGoesHomeIff(plan, i, chunk);
    var last := LastWriter(plan, chunk.source, |plan.files|);
    if last > i {
      OnlyOwnPathWritten(plan, i, last);
    }
  }

  /** Chunks of two uploads never end up in one document unless the files share a host path. */
  lemma UploadsNeverMerge(c: Crypto, plan: Plan, i: nat, j: nat, x: MappedChunk, y: MappedChunk)
    requires ProperUploads(plan) && InjectiveOnNames(c)
    requires i < |plan.files| && j < |plan.files|
    requires x.source == UploadPath(plan, i) && y.source == UploadPath(plan, j)
    requires Canonical(plan.Host(i)) && Canonical(plan.Host(j))
    ensures var overrides := Overrides(plan, |plan.files|);
            Override(c, x, overrides).documentId == Override(c, y, overrides).documentId <==>
            plan.Host(i) == plan.Host(j)
  {
    UploadedChunkGoesHome(plan, i, x);
    UploadedChunkGoesHome(plan, j, y);
    Text.StripOfTrimmed(plan.Host(i));
    Text.StripOfTrimmed(plan.Host(j));
  }
}
