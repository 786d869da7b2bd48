/**
 * The ChumichCluster reconciler: one invocation fetches the object, resolves
 * its owner Cluster, honours the pause gate and the completion token, and
 * otherwise records the token "123456" with a single patch.
 *
 * Its collaborators are injected per invocation through `Env`: a transport
 * failure of the fetch, the owner lookup, the pause check, and the outcomes
 * of creating the patch helper and of the patch itself. The API server's
 * objects are values (`ClusterState`) keyed by namespace and name.
 */
module Controller {
  import opened Wrappers
  import opened Meta
  import opened Types
  import opened Message

  /** Errors the API server and its client report. */
  datatype ApiError = NotFound | Conflict | ServerError(reason: string)

  /** What Reconcile returns as its error: a collaborator's error unchanged, or a failed patch wrapped with the object's name. */
  datatype ReconcileError =
    | ApiFailure(cause: ApiError)
    | PatchFailure(clusterName: string, cause: ApiError)

  /** What the owner lookup yields: the owner, a nil owner, or an error. */
  datatype OwnerLookup = OwnerFound(cluster: Cluster) | OwnerNotSet | LookupFailed(cause: ApiError)

  /** The requeue request Reconcile returns; it always returns the empty one. */
  datatype CtrlResult = CtrlResult(requeue: bool, requeueAfter: nat)

  const EmptyResult := CtrlResult(false, 0)

  /** The completion token the reconciler writes. */
  const HardcodedMessageID := "123456"

  /** The collaborators' behaviour during one invocation. */
  datatype Env = Env(
    getFault: Option<ApiError>,
    ownerOf: ObjectMeta -> OwnerLookup,
    paused: (Cluster, ObjectMeta) -> bool,
    helperFault: Option<ApiError>,
    patchFault: Option<ApiError>)

  /** One call to a collaborator, as it is issued. */
  datatype Call =
    | Get(key: NamespacedName)
    | GetOwnerCluster(meta: ObjectMeta)
    | IsPaused(owner: Cluster, meta: ObjectMeta)
    | NewHelper(snapshot: ClusterState)
    | Patch(before: ClusterState, after: ClusterState)

  type Objects = map<NamespacedName, ClusterState>

  /** What one invocation returns, the calls it issues and the objects afterwards. */
  datatype Outcome = Outcome(err: Option<ReconcileError>, calls: seq<Call>, objects: Objects)

  /** The client's Get: a transport failure, the stored object, or NotFound. */
  function Fetch(objects: Objects, key: NamespacedName, fault: Option<ApiError>): (r: Result<ClusterState, ApiError>)
    ensures fault.Some? ==> r == Err(fault.value)
    ensures fault.None? && key in objects ==> r == Ok(objects[key])
    ensures fault.None? && key !in objects ==> r == Err(NotFound)
  {
    if fault.Some? then Err(fault.value)
    else if key in objects then Ok(objects[key])
    else Err(NotFound)
  }

  /** The object as Reconcile leaves it in memory before the patch: only the token is set. */
  function WithToken(obj: ClusterState): (updated: ClusterState)
  {
    obj.(messageID := Some(HardcodedMessageID))
  }

  /** One invocation of Reconcile, as a function of the objects and the collaborators. */
  function Step(objects: Objects, req: NamespacedName, env: Env): (o: Outcome)
  {
    match Fetch(objects, req, env.getFault)
    case Err(e) =>
      Outcome(if e == NotFound then None else Some(ApiFailure(e)), [Get(req)], objects)
    case Ok(obj) =>
      var looked := [Get(req), GetOwnerCluster(obj.objectMeta)];
      match env.ownerOf(obj.objectMeta)
      case LookupFailed(e) => Outcome(Some(ApiFailure(e)), looked, objects)
      case OwnerNotSet => Outcome(None, looked, objects)
      case OwnerFound(owner) =>
        var checked := looked + [IsPaused(owner, obj.objectMeta)];
        if env.paused(owner, obj.objectMeta) || obj.messageID.Some? then
          Outcome(None, checked, objects)
        else
          var snapped := checked + [NewHelper(obj)];
          if env.helperFault.Some? then
            Outcome(Some(ApiFailure(env.helperFault.value)), snapped, objects)
          else
            var patched := snapped + [Patch(obj, WithToken(obj))];
            if env.patchFault.Some? then
              Outcome(Some(PatchFailure(obj.objectMeta.name, env.patchFault.value)), patched, objects)
            else
              Outcome(None, patched, objects[req := WithToken(obj)])
  }

  // The reconciliation states, derived from the object and its token.

  /** The object exists, its owner is known, it is not paused and it has no token. */
  predicate PendingAction(objects: Objects, req: NamespacedName, env: Env)
  {
    env.getFault.None? && req in objects &&
    env.ownerOf(objects[req].objectMeta).OwnerFound? &&
    !env.paused(env.ownerOf(objects[req].objectMeta).cluster, objects[req].objectMeta) &&
    objects[req].messageID.None?
  }

  predicate PatchIssued(calls: seq<Call>)
  {
    exists i :: 0 <= i < |calls| && calls[i].Patch?
  }

  /** The patches among the calls, in order. */
  function Patches(calls: seq<Call>): (r: seq<Call>)
    ensures |r| <= |calls|
    ensures forall i :: 0 <= i < |r| ==> r[i].Patch?
    ensures PatchIssued(calls) <==> r != []
  {
    if calls == [] then []
    else
      var tail := Patches(calls[1..]);
      assert forall i :: 1 <= i < |calls| ==> calls[i] == calls[1..][i - 1];
      if calls[0].Patch? then [calls[0]] + tail else tail
  }

  /** The patches of two call sequences, one after the other. */
  lemma {:induction false} PatchesAppend(a: seq<Call>, b: seq<Call>)
    ensures Patches(a + b) == Patches(a) + Patches(b)
  {
    if a != [] {
      assert (a + b)[1..] == a[1..] + b;
      PatchesAppend(a[1..], b);
    } else {
      assert a + b == b;
    }
  }

  /**
   * The objects moved forward only by recording tokens: the same keys, and
   * each object either unchanged or, having had no token, now carrying
   * "123456" with every other field as it was.
   */
  ghost predicate Advanced(before: Objects, after: Objects)
  {
    before.Keys == after.Keys &&
    forall k :: k in before ==> after[k] == before[k] || (before[k].messageID.None? && after[k] == WithToken(before[k]))
  }

  // Properties of one invocation.

  /** A missing object is success; nothing but the fetch is called. */
  lemma AbsentIsSuccess(objects: Objects, req: NamespacedName, env: Env)
    requires Fetch(objects, req, env.getFault) == Err(NotFound)
    ensures Step(objects, req, env) == Outcome(None, [Get(req)], objects)
  {
  }

  /** Any other fetch error is returned unchanged; nothing but the fetch is called. */
  lemma FetchErrorIsReturned(objects: Objects, req: NamespacedName, env: Env, e: ApiError)
    requires Fetch(objects, req, env.getFault) == Err(e) && e != NotFound
    ensures Step(objects, req, env) == Outcome(Some(ApiFailure(e)), [Get(req)], objects)
  {
  }

  /** A failed owner lookup is returned unchanged; there is no pause check and no patch. */
  lemma OwnerLookupErrorIsReturned(objects: Objects, req: NamespacedName, env: Env, e: ApiError)
    requires env.getFault.None? && req in objects
    requires env.ownerOf(objects[req].objectMeta) == LookupFailed(e)
    ensures Step(objects, req, env) ==
      Outcome(Some(ApiFailure(e)), [Get(req), GetOwnerCluster(objects[req].objectMeta)], objects)
  {
  }

  /** A nil owner is success (the error returned there is nil); there is no pause check and no patch. */
  lemma OwnerNotSetIsSuccess(objects: Objects, req: NamespacedName, env: Env)
    requires env.getFault.None? && req in objects
    requires env.ownerOf(objects[req].objectMeta) == OwnerNotSet
    ensures Step(objects, req, env) ==
      Outcome(None, [Get(req), GetOwnerCluster(objects[req].objectMeta)], objects)
  {
  }

  /** A paused object is success with no patch, whatever its token. */
  lemma PausedIsSuccess(objects: Objects, req: NamespacedName, env: Env, owner: Cluster)
    requires env.getFault.None? && req in objects
    requires env.ownerOf(objects[req].objectMeta) == OwnerFound(owner)
    requires env.paused(owner, objects[req].objectMeta)
    ensures Step(objects, req, env).err == None
    ensures !PatchIssued(Step(objects, req, env).calls)
    ensures Step(objects, req, env).objects == objects
  {
  }

  /** An object that already has a token is success with no patch; the token stays as it is. */
  lemma CompletedIsSuccess(objects: Objects, req: NamespacedName, env: Env)
    requires env.getFault.None? && req in objects
    requires objects[req].messageID.Some?
    requires !env.ownerOf(objects[req].objectMeta).LookupFailed?
    ensures Step(objects, req, env).err == None
    ensures !PatchIssued(Step(objects, req, env).calls)
    ensures Step(objects, req, env).objects == objects
  {
  }

  /**
   * A pending object gets exactly one patch (once the helper exists), whose
   * object differs from the fetched one only in the token, now "123456".
   * The objects change exactly when the patch succeeds; a failure of the
   * helper or of the patch is returned as an error.
   */
  lemma PendingActionPatchesOnce(objects: Objects, req: NamespacedName, env: Env)
    requires PendingAction(objects, req, env)
    ensures var o := Step(objects, req, env);
      |Patches(o.calls)| == (if env.helperFault.None? then 1 else 0) &&
      (env.helperFault.None? ==>
        Patches(o.calls)[0] == Patch(objects[req], WithToken(objects[req])) &&
        WithToken(objects[req]).spec == objects[req].spec &&
        WithToken(objects[req]).objectMeta == objects[req].objectMeta &&
        WithToken(objects[req]).typeMeta == objects[req].typeMeta) &&
      (o.err == None <==> env.helperFault.None? && env.patchFault.None?) &&
      o.objects == if o.err == None then objects[req := WithToken(objects[req])] else objects
  {
    var obj := objects[req];
    var owner := env.ownerOf(obj.objectMeta).cluster;
    var checked := [Get(req), GetOwnerCluster(obj.objectMeta), IsPaused(owner, obj.objectMeta), NewHelper(obj)];
    assert Patches(checked) == [] by {
      assert checked[1..][1..][1..][1..] == [];
    }
    var calls := Step(objects, req, env).calls;
    if env.helperFault.None? {
      assert calls == checked + [Patch(obj, WithToken(obj))];
      PatchesAppend(checked, [Patch(obj, WithToken(obj))]);
    } else {
      assert calls == checked;
    }
  }

  /** A patch is issued exactly when the object is pending and the helper exists. */
  lemma PatchIffPending(objects: Objects, req: NamespacedName, env: Env)
    ensures PatchIssued(Step(objects, req, env).calls) <==> PendingAction(objects, req, env) && env.helperFault.None?
  {
    var calls := Step(objects, req, env).calls;
    if PendingAction(objects, req, env) && env.helperFault.None? {
      assert calls[|calls| - 1].Patch?;
    } else {
      assert forall i :: 0 <= i < |calls| ==> !calls[i].Patch?;
    }
  }

  /** One invocation only records tokens. */
  lemma StepAdvances(objects: Objects, req: NamespacedName, env: Env)
    ensures Advanced(objects, Step(objects, req, env).objects)
  {
  }

  /**
   * After a successful first invocation on a pending object, a second one,
   * with the same or any other collaborators, issues no patch and changes
   * nothing; with the same collaborators it succeeds.
   */
  lemma SecondReconcileIsNoOp(objects: Objects, req: NamespacedName, env: Env, env2: Env)
    requires PendingAction(objects, req, env)
    requires Step(objects, req, env).err == None
    ensures var after := Step(objects, req, env).objects;
      after[req].messageID == Some(HardcodedMessageID) &&
      !PatchIssued(Step(after, req, env2).calls) &&
      Step(after, req, env2).objects == after &&
      Step(after, req, env).err == None
  {
  }

  // Properties of any sequence of invocations.

  /** One invocation of Reconcile for a key, with its collaborators. */
  datatype Invocation = Invocation(req: NamespacedName, env: Env)

  /** The objects after a sequence of invocations, one after another. */
  function Replay(objects: Objects, runs: seq<Invocation>): (after: Objects)
    decreases |runs|
  {
    if runs == [] then objects
    else Replay(Step(objects, runs[0].req, runs[0].env).objects, runs[1..])
  }

  lemma AdvancedTransitive(a: Objects, b: Objects, c: Objects)
    requires Advanced(a, b) && Advanced(b, c)
    ensures Advanced(a, c)
  {
  }

  /** Any sequence of invocations, on any keys, only records tokens. */
  lemma {:induction false} ReplayAdvances(objects: Objects, runs: seq<Invocation>)
    ensures Advanced(objects, Replay(objects, runs))
    decreases |runs|
  {
    if runs != [] {
      var next := Step(objects, runs[0].req, runs[0].env).objects;
      StepAdvances(objects, runs[0].req, runs[0].env);
      ReplayAdvances(next, runs[1..]);
      AdvancedTransitive(objects, next, Replay(next, runs[1..]));
    }
  }

  /** A recorded token, and the object carrying it, survive any sequence of invocations. */
  lemma RecordedTokenIsPermanent(objects: Objects, runs: seq<Invocation>, k: NamespacedName)
    requires k in objects && objects[k].messageID.Some?
    ensures k in Replay(objects, runs) && Replay(objects, runs)[k] == objects[k]
  {
    ReplayAdvances(objects, runs);
  }

  /** The reconciler with the API server's objects it reaches through its client. */
  class ChumichClusterReconciler {
    var objects: Objects
    /** Every collaborator call issued so far. */
    ghost var calls: seq<Call>

    constructor (objects: Objects)
      ensures this.objects == objects && calls == []
    {
      this.objects := objects;
      calls := [];
    }

    method Reconcile(req: NamespacedName, env: Env) returns (result: CtrlResult, err: Option<ReconcileError>)
      modifies this
      ensures result == EmptyResult
      ensures var o := Step(old(objects), req, env);
        err == o.err && objects == o.objects && calls == old(calls) + o.calls
    {
      result := EmptyResult;

      calls := calls + [Get(req)];
      var fetched := Fetch(objects, req, env.getFault);
      if fetched.Err? {
        if fetched.error == NotFound {
          return result, None;
        }
        return result, Some(ApiFailure(fetched.error));
      }
      var chumichCluster := fetched.value;

      calls := calls + [GetOwnerCluster(chumichCluster.objectMeta)];
      var lookup := env.ownerOf(chumichCluster.objectMeta);
      if lookup.LookupFailed? {
        return result, Some(ApiFailure(lookup.cause));
      }
      if lookup.OwnerNotSet? {
        return result, None;
      }
      var cluster := lookup.cluster;

      calls := calls + [IsPaused(cluster, chumichCluster.objectMeta)];
      if env.paused(cluster, chumichCluster.objectMeta) {
        return result, None;
      }

      if chumichCluster.messageID.Some? {
        return result, None;
      }

      // Only written to the log.
      var subject := Subject(chumichCluster.spec.priority, cluster.objectMeta.name);
      var body := Body(chumichCluster.spec.request);

      calls := calls + [NewHelper(chumichCluster)];
      if env.helperFault.Some? {
        return result, Some(ApiFailure(env.helperFault.value));
      }
      var snapshot := chumichCluster;

      var messageID := HardcodedMessageID;
      chumichCluster := chumichCluster.(messageID := Some(messageID));
      calls := calls + [Patch(snapshot, chumichCluster)];
      if env.patchFault.Some? {
        return result, Some(PatchFailure(chumichCluster.objectMeta.name, env.patchFault.value));
      }
      objects := objects[req := chumichCluster];
      return result, None;
    }
  }
}
