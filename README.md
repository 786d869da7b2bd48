# ChumichCluster reconciler and API deep copies, in Dafny

This project models the core of a Cluster API infrastructure provider. It has two parts.

- **The ChumichCluster reconciler** (`controller.dfy`, `message.dfy`). Each invocation goes through these guards in order:
  1. It fetches the ChumichCluster. A missing object is success.
  2. It resolves the owner Cluster. A lookup error is returned. A nil owner is success.
  3. It honours the pause gate. A paused object is success.
  4. It checks the completion token `Status.MessageID`. An object that already has one is success.
  5. Otherwise it builds a subject and body, takes a patch snapshot, sets the token to `"123456"`, and commits with one patch.
- **The generated deep-copy routines** of the v1alpha4 API types (`deepcopy.dfy`, over the types in `types.dfy` and `meta.dfy`).

The API server's objects are the field `objects` of `Controller.ChumichClusterReconciler`: a map from namespace/name to the object's value (`ClusterState`).

The collaborators are inputs of each invocation, bundled as `Controller.Env`:
- a transport failure of `Get`;
- the owner lookup, a total function from the object's metadata to owner, nil or error;
- the pause check, a total predicate over owner Cluster and object metadata;
- the outcome of creating the patch helper;
- the outcome of the patch. A failed patch has no effect on the stored objects.

A ghost field `calls` records every collaborator call, so lemmas can state which calls an invocation makes. `Controller.Step` is one invocation as a function. `Reconcile` is the imperative method, and it is proved to agree with `Step`. The lemmas state the guard properties about `Step`. `Controller.Replay` runs any sequence of invocations, on any keys, one after another.

The Go types map to Dafny as follows:
- A Go struct is a datatype. A Go pointer is a reference to a `Types.Cell`. A Go slice is an `array?`, where `null` is the nil slice. So copying a datatype shares cells and arrays, just as `*out = *in` shares pointers and slices.
- `DeepCopyInto(out)` overwrites all of `*out`. When `out` is not `in` itself, it is therefore modelled as a method that returns the value it writes there.
- `DeepCopy` takes and returns a nullable `Cell?`. What `new(T)`, `make` and `new(string)` allocate is stated as `fresh` in each contract, so a caller may write into its copy.
- No deep-copy method has a `modifies` clause, so the receiver is provably left unmodified.
- "Equal in value" compares values with pointers followed (`Types.ClusterValue`, `Types.MessageIDValue`).

`chumichcluster_types.go` is not part of this model. The fields of `ChumichClusterSpec` (`Priority`, `Request`, both strings) and of `ChumichClusterStatus` (`MessageID`, a `*string`) are taken from their uses in the controller and in the deep-copy code.

Two behaviours of the code are worth stating plainly:
- **Missing owner Cluster.** One might expect an owner reference that points to a missing Cluster to be treated like a nil owner, as success. The code instead returns whatever error `util.GetOwnerCluster` reports (controllers/chumichcluster_controller.go:74-78). So a lookup that fails with NotFound is returned as an error here.
- **The token.** No notification is sent and no token is obtained from elsewhere. The code writes the literal `"123456"` (`Controller.HardcodedMessageID`), and the subject and body are only logged.

## Model

| member | source | states |
|---|---|---|
| `DeepCopy.ChumichClusterDeepCopyInto` | api/v1alpha4/zz_generated.deepcopy.go:29-35 | the copy equals the original in value (TypeMeta, ObjectMeta, Spec, the token); a set `MessageID` is a newly allocated cell |
| `DeepCopy.ChumichClusterDeepCopy` | api/v1alpha4/zz_generated.deepcopy.go:38-45 | nil gives nil; otherwise a newly allocated object equal in value whose set `MessageID` is a newly allocated cell; the receiver is not modified |
| `DeepCopy.ChumichClusterListDeepCopyInto` | api/v1alpha4/zz_generated.deepcopy.go:56-67 | TypeMeta and ListMeta equal; nil `Items` stays nil; otherwise a newly allocated slice of the same length whose elements equal the source's in value and point to newly allocated, pairwise distinct token cells, none of them the source's |
| `DeepCopy.ChumichClusterListDeepCopy` | api/v1alpha4/zz_generated.deepcopy.go:70-77 | nil gives nil; otherwise a newly allocated list equal in meta, with the same nil-ness of `Items`, a newly allocated slice of the same length, elements equal in value, and newly allocated, pairwise distinct token cells none of which is the receiver's |
| `DeepCopy.ChumichClusterSpecDeepCopyInto` | api/v1alpha4/zz_generated.deepcopy.go:88-90 | the copy equals the spec |
| `DeepCopy.ChumichClusterSpecDeepCopy` | api/v1alpha4/zz_generated.deepcopy.go:93-100 | nil gives nil; otherwise a newly allocated pointer to an equal spec |
| `DeepCopy.ChumichClusterStatusDeepCopyInto` | api/v1alpha4/zz_generated.deepcopy.go:103-110 | the token is the same (nil stays nil); a set `MessageID` is a newly allocated cell |
| `DeepCopy.ChumichClusterStatusDeepCopy` | api/v1alpha4/zz_generated.deepcopy.go:113-120 | nil gives nil; otherwise a newly allocated pointer to a status with the same token, held in a newly allocated cell |
| `DeepCopy.WriteThroughCopyLeavesOriginal` | api/v1alpha4/zz_generated.deepcopy.go:105-109 | writing a new token through the copy's `MessageID` leaves the original's token as it was |
| `DeepCopy.ChumichMachineDeepCopyInto` | api/v1alpha4/zz_generated.deepcopy.go:123-129 | the copy equals the machine |
| `DeepCopy.ChumichMachineDeepCopy` | api/v1alpha4/zz_generated.deepcopy.go:132-139 | nil gives nil; otherwise a newly allocated pointer to an equal machine |
| `DeepCopy.ChumichMachineListDeepCopyInto` | api/v1alpha4/zz_generated.deepcopy.go:150-161 | TypeMeta and ListMeta equal; nil `Items` stays nil; otherwise a newly allocated slice with the same elements |
| `DeepCopy.ChumichMachineListDeepCopy` | api/v1alpha4/zz_generated.deepcopy.go:164-171 | nil gives nil; otherwise a newly allocated list equal in meta whose `Items` is nil exactly when the receiver's is, and otherwise a newly allocated slice with the same elements |
| `DeepCopy.ChumichMachineSpecDeepCopyInto` | api/v1alpha4/zz_generated.deepcopy.go:182-184 | the copy equals the spec |
| `DeepCopy.ChumichMachineSpecDeepCopy` | api/v1alpha4/zz_generated.deepcopy.go:187-194 | nil gives nil; otherwise a newly allocated pointer to an equal spec |
| `DeepCopy.ChumichMachineStatusDeepCopyInto` | api/v1alpha4/zz_generated.deepcopy.go:197-199 | the copy equals the status |
| `DeepCopy.ChumichMachineStatusDeepCopy` | api/v1alpha4/zz_generated.deepcopy.go:202-209 | nil gives nil; otherwise a newly allocated pointer to an equal status |
| `Message.SubjectRoundTrip` | controllers/chumichcluster_controller.go:95 | the priority (without `]`) and the owner's name are read back from `"[<priority>] New Cluster <name> requested"` |
| `Message.SubjectInjective` | controllers/chumichcluster_controller.go:95 | two equal subjects come from the same priority and owner name |
| `Message.BodyRoundTrip` | controllers/chumichcluster_controller.go:96 | the request is read back from `"Hello! One ChumichCluster please. \n\n<request>\n"` |
| `Controller.Fetch` | controllers/chumichcluster_controller.go:63 | a transport failure is returned as the error; otherwise `Get` yields the stored object for a stored key and NotFound for a missing one |
| `Controller.ChumichClusterReconciler.Reconcile` | controllers/chumichcluster_controller.go:57-116 | returns the empty requeue result; its error, the new objects and the calls it issues are those of `Step` on the old objects |
| `Controller.AbsentIsSuccess` | controllers/chumichcluster_controller.go:63-67 | a NotFound fetch is success, with no owner lookup, no pause check, no patch and no change |
| `Controller.FetchErrorIsReturned` | controllers/chumichcluster_controller.go:69-70 | any other fetch error is returned unchanged, with only the fetch called and no change |
| `Controller.OwnerLookupErrorIsReturned` | controllers/chumichcluster_controller.go:74-78 | an owner lookup error is returned unchanged, with no pause check, no patch and no change |
| `Controller.OwnerNotSetIsSuccess` | controllers/chumichcluster_controller.go:80-83 | a nil owner is success (the returned `err` is nil), with no pause check, no patch and no change |
| `Controller.PausedIsSuccess` | controllers/chumichcluster_controller.go:85-88 | a paused object is success with no patch and no change, whatever its token |
| `Controller.CompletedIsSuccess` | controllers/chumichcluster_controller.go:90-93 | an object that already has a token is success with no patch; the objects, and so the token, stay as they are |
| `Controller.PendingActionPatchesOnce` | controllers/chumichcluster_controller.go:102-112 | a pending object gets exactly one patch once the helper exists; the patched object is the snapshot with the token set to "123456", and Spec and metadata are untouched; success exactly when neither helper nor patch fails; the objects change, to the patched object, exactly on success |
| `Controller.PatchIffPending` | controllers/chumichcluster_controller.go:85-110 | a patch is issued if and only if the object exists, has an owner, is not paused, has no token and the helper was created |
| `Controller.StepAdvances` | controllers/chumichcluster_controller.go:108-112 | one invocation keeps the set of objects and changes an object only by giving a token-less object the token "123456" |
| `Controller.SecondReconcileIsNoOp` | controllers/chumichcluster_controller.go:90-115 | after a successful first invocation on a pending object, a second one with any collaborators issues no patch and changes nothing, and with the same collaborators it succeeds |
| `Controller.ReplayAdvances` | controllers/chumichcluster_controller.go:90-112 | any sequence of invocations on any keys only records tokens on objects that had none |
| `Controller.RecordedTokenIsPermanent` | controllers/chumichcluster_controller.go:90-93 | an object with a recorded token, and so the token itself, is unchanged by any sequence of invocations |

## Left out

- Logging throughout `Reconcile`, and the wording of the wrapped patch error. The model keeps only the cause and the object's name (`PatchFailure`). Log output is a side channel.
- The internals of `patch.NewHelper` and `helper.Patch`: the diff computation and the split between body and status. This is a foreign library. The helper is modelled as creation success or failure, and the patch as success (the patched object is stored) or failure (no effect). The calls it receives record the snapshot and the mutated object.
- The internals of `util.GetOwnerCluster` and `annotations.IsPaused`. These are foreign code and are inputs here.
- `ObjectMeta.DeepCopyInto` and `ListMeta.DeepCopyInto`. These are foreign types, modelled as plain values that are copied by value.
- `DeepCopyObject` (api/v1alpha4/zz_generated.deepcopy.go:48-53, 80-85, 142-147, 174-179). It only converts the result of `DeepCopy` to the `runtime.Object` interface, a foreign type.
- `SetupWithManager`, the RBAC markers, the `Scheme` and `Recipient` fields, and `SchemeBuilder.Register` in chumichmachine_types.go. These are manager wiring and manifests.
- Context cancellation, the controller work queue, and concurrent reconciles of the same object. The dispatcher owns these, and invocations are modelled as strictly sequential (`Controller.Replay`).
- Writes by other actors between invocations, such as deleting the object or setting its owner reference. `RecordedTokenIsPermanent` is about the reconciler's own invocations only.
- The identity of the `*string` cell Reconcile allocates at controllers/chumichcluster_controller.go:108-109. The controller works on values, and nothing else refers to that cell before it is patched.
- `DeepCopyInto` called with `out` the same object as `in` (as in `x.DeepCopyInto(x)`). Go then overwrites the source while copying it. The status copy at api/v1alpha4/zz_generated.deepcopy.go:104-108 leaves `MessageID` pointing to a new cell that holds `""`. The list copies at :61-65 and :155-159 leave `Items` filled with zero values. The model assumes `out` is disjoint from `in`, and returns an unchanged copy.
- `DeepCopy.ChumichMachineStatusDeepCopyInto`: `ChumichMachineStatus` has no fields, so its contract `out == inp` holds of every result.
