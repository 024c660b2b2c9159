/** Which calls an ingest makes, one by one, and what its override map says of every key. */
module UploadMeaning {
  import opened Wrappers
  import opened LangflowIngest
  import Text

  /** The upload, the flow and the delete of this file all went well. */
  predicate GoesWell(reply: Reply) {
    reply.upload.Some? && reply.runOk && reply.deleteOk
  }

  /** File `i` was uploaded, the flow ran on it, and it was deleted, from place `at` on. */
  ghost predicate RanThrough(plan: Plan, i: nat, log: seq<Call>, at: nat)
    requires plan.Valid() && i < |plan.files|
  {
    && plan.replies[i].upload.Some?
    && var uploaded := plan.replies[i].upload.value;
    && at + 2 < |log|
    && log[at] == Upload(plan.files[i]) && log[at + 1] == RunFlow(uploaded.path) && log[at + 2] == Delete(uploaded.id)
  }

  lemma {:induction false} CallsOfGoodFiles(plan: Plan, n: nat)
    requires plan.Valid() && n <= |plan.files|
    requires forall i | 0 <= i < n :: GoesWell(plan.replies[i])
    ensures |CallsUpTo(plan, n)| == 3 * n
    ensures forall i | 0 <= i < n ::
              RanThrough(plan, i, CallsUpTo(plan, n), 3 * i)
  {
    if n > 0 {
      CallsOfGoodFiles(plan, n - 1);
      assert GoesWell(plan.replies[n - 1]);
      var before := CallsUpTo(plan, n - 1);
      forall i | 0 <= i < n - 1
        ensures RanThrough(plan, i, CallsUpTo(plan, n), 3 * i)
      {
        assert RanThrough(plan, i, before, 3 * i);
      }
    }
  }

  lemma GoodFilesSucceed(plan: Plan, n: nat)
    requires plan.Valid() && n <= |plan.files|
    ensures (forall i | 0 <= i < n :: GoesWell(plan.replies[i])) <==> forall i | 0 <= i < n :: plan.Succeeds(i)
  {
    if forall i | 0 <= i < n :: plan.Succeeds(i) {
      forall i | 0 <= i < n
        ensures GoesWell(plan.replies[i])
      {
        assert plan.Succeeds(i);
      }
    }
  }

  /** If all goes well: three calls for each file, in the order of the files, and then the sync if there is one. */
  lemma CallsWhenAllGoesWell(plan: Plan, withSync: bool)
    requires plan.Valid() && forall i | 0 <= i < |plan.files| :: GoesWell(plan.replies[i])
    ensures var n, log := |plan.files|, Trace(plan, withSync);
            && |log| == 3 * n + (if withSync then 1 else 0)
            && (forall i | 0 <= i < n :: RanThrough(plan, i, log, 3 * i))
            && AllSucceed(plan) && (withSync ==> log[3 * n] == SyncChunks(Overrides(plan, n)))
  {
    var n, log := |plan.files|, Trace(plan, withSync);
    GoodFilesSucceed(plan, n);
    SuccessTrace(plan);
    CallsOfGoodFiles(plan, n);
    var calls := CallsUpTo(plan, n);
    forall i | 0 <= i < n
      ensures RanThrough(plan, i, log, 3 * i)
    {
      assert RanThrough(plan, i, calls, 3 * i);
    }
  }

  /**
   If file `p` is the first with a failure: the calls of the files before it, its upload and, if
   that worked, its flow and its delete; then nothing more, sync or not.
  */
  lemma CallsUpToFailure(plan: Plan, withSync: bool, p: nat)
    requires plan.Valid() && p < |plan.files|
    requires (forall i | 0 <= i < p :: GoesWell(plan.replies[i])) && !GoesWell(plan.replies[p])
    ensures var log := Trace(plan, withSync);
            && (forall i | 0 <= i < p :: RanThrough(plan, i, log, 3 * i))
            && match plan.replies[p].upload
               case None => |log| == 3 * p + 1 && log[3 * p] == Upload(plan.files[p])
               case Some(_) => |log| == 3 * p + 3 && RanThrough(plan, p, log, 3 * p)
  {
    GoodFilesSucceed(plan, p);
    FailureTrace(plan, p);
    CallsOfGoodFiles(plan, p);
    var calls, log := CallsUpTo(plan, p), Trace(plan, withSync);
    assert log == calls + CallsFor(plan, p);
    forall i | 0 <= i < p
      ensures RanThrough(plan, i, log, 3 * i)
    {
      assert RanThrough(plan, i, calls, 3 * i);
    }
  }

  // ---------------------------------------------------------------- the override map

  /**
   File `i` answers for this key: it is the path under which the file was uploaded, or, if no
   other file has the file's base name, that name or the base name of the uploaded path.
  */
  ghost predicate AnswersFor(plan: Plan, i: nat, key: string)
    requires AllSucceed(plan) && i < |plan.files|
  {
    || key == UploadPath(plan, i)
    || ((forall j | 0 <= j < |plan.files| && j != i :: Text.BaseName(plan.files[j]) != Text.BaseName(plan.files[i]))
        && (key == Text.BaseName(plan.files[i]) || key == Text.BaseName(UploadPath(plan, i))))
  }

  lemma AnswersIsWrites(plan: Plan, i: nat, key: string)
    requires AllSucceed(plan) && i < |plan.files|
    ensures AnswersFor(plan, i, key) <==> plan.Writes(i, key)
  {
    assert plan.Succeeds(i);
  }

  /** A key leads to the host path of the last file that answers for it, and nowhere if none does. */
  lemma OverridesDo(plan: Plan, key: string) returns (last: int)
    requires AllSucceed(plan)
    ensures -1 <= last < |plan.files|
    ensures forall i | last < i < |plan.files| :: !AnswersFor(plan, i, key)
    ensures last >= 0 ==> AnswersFor(plan, last, key)
    ensures var overrides := Overrides(plan, |plan.files|);
            if last < 0 then key !in overrides
            else key in overrides && overrides[key] == plan.hostOf(plan.files[last])
  {
    last := LastWriter(plan, key, |plan.files|);
    OverrideIsLastWriters(plan, key, |plan.files|);
    forall i: nat | i < |plan.files|
      ensures AnswersFor(plan, i, key) <==> plan.Writes(i, key)
    {
      AnswersIsWrites(plan, i, key);
    }
  }
}
