# Image signing operator: a verified model

The operator watches two kinds of objects. For an `ImageSigner` it starts a privileged docker-in-docker pod, has
`docker trust` generate a root key in it and stores that key in a `SignerKey`. For an `ImageSignRequest` it starts a
pod that gets the root key and the target key back, loads, tags and signs the image, stores a newly made target key by
a merge patch, and answers the request in its status. Beside this, an extension API server keeps its routes in a tree.

## How the model is built

The modules, from the bottom up:

- `Wrappers`, `Strings`, `Paths`: options, the functions of Go's `strings` package that are used, `path.Clean` and `path.Join`.
- `ApiTypes`, `Naming`: the custom resources as values; image, target, registry and passphrase names.
- `Identifiers`: the names that the Kubernetes API takes for its objects (labels of RFC 1123, section 2.1), the image
  references that docker takes, and the paths that files can have.
- `MergePatch`, `SignerKeyJson`: merge patches (section 2 of RFC 7396), their computation, and `SignerKey` objects as JSON.
- `Shell`, `CommandOptions`: the post-start script, a reader for the part of the POSIX.1-2017 Shell Command Language it
  uses (sections 2.2.3, 2.3, 2.7 and 2.9), and what running it leaves behind. `Commands`: the texts of the commander's
  commands, and when that reader takes them for the one command that is meant.
- `DindPod`: the pod manifest as an object that the options change in place.
- `Objects`: the resources as structs with pointers, `DeepCopy`, and the functions that write statuses.
- `Protocol`: the whole operator as a step machine. A state holds every object with all its versions, the pods, and any
  number of runs of `Reconcile`; an event is one API call or pod command of one run, the death of a run's process, or an
  act of the outside world. A `Run` is any sequence of events.
- `ProtocolInvariant`, `ProtocolSteps`, `ProtocolActs`, `ProtocolKeys`, `ProtocolRuns`: the invariant and the proof that every
  event keeps it. `ProtocolTheorems`: what follows for all runs. `ProtocolFlow`, `ProtocolLimits`: the control flow, the end of
  every run, and what the operator cannot do.
- `ProtocolAnswers`, `ProtocolPanics`: what a Success takes, which runs panic, and which end without an answer.
  `ProtocolLoss`: how long a stored key, a status within reach and somebody else's pod last.
- `ProtocolPods`: where the signing pods are, what they are called, and, letter by letter, what is done in them for a Success.
- `ProtocolWitness`, `ProtocolSuccess`: runs, built event by event, up to a stored root key and from there to a Success for
  every answerable request, and to a key that is lost. `ProtocolAstray`: which requests the shell reads as they are meant, and
  the Success of one that it does not.
- `Operator`, `Controller`, `Reconcilers`: the program itself, imperative and statement by statement, against a `Cluster`
  whose state is the machine's. Between any two calls others do anything, each call is answered in any possible way, and
  the process may die at any call. Every call has as its precondition that the program passes exactly what the machine's
  run is about to ask for, so the methods prove that the program takes no step the machine does not take, and all theorems
  about runs hold of it. The cluster keeps the answers to all calls and the texts handed to a shell; the methods say in these
  terms, and in terms of their own arguments, which calls they make and what they make of the answers.
- `RouteTree`, `RoutePaths`: the tree of route wrappers on the heap, and its traversal.

## What is assumed of the environment

- A `Get` returns some version of the object, maybe an old one, or fails; the caches of the manager's client give no more.
- `Status().Update` is a compare-and-swap on the resource version; a refused or lost reply is dropped by the deferred caller.
  A write can be applied and still be reported as failed. An update that changes nothing makes no version.
- `Create` fails if the name exists. `Patch` made with `MergeFrom` carries no resource version and applies to whatever is stored.
- Nobody deletes signers or signer keys, rewrites a root, removes a target entry, changes the spec of a request, or writes
  a status, except the operator. Others may create signers and requests, delete and re-create requests, touch any object,
  and write targets: at the start of a signer key somebody has to, see below.
- Signers, requests, pods, registries, secrets and volume claims exist only under proper names. A pod with a volume that
  does not exist never runs. The random names of the operator's pods do not repeat; others may create pods under any name that
  no pod of the operator has had.
- A process that dies makes no deferred calls, while a panic does.
- Commands succeed only in a live, running pod. A text that the shell reads as the command meant does what docker does with
  that command: `docker load` succeeds only with a file, `docker tag` only with an image reference, `docker trust sign` only
  with one that has a tag, by the grammar in the documentation of `docker image tag`, of at most 255 characters once the
  default registry is spelled out.
- Once a text has been read as something else, or a restored key is one that a shell takes apart, the pod has gone astray:
  anything may be in it and it may answer anything from then on. It still does nothing outside of itself.
- Image archives are only in the volumes mounted. A claim may hold any file, a secret only its keys.
- `docker trust` generates key files under new names; a file carries the line of its role, not that of the other role, and
  no double quote, dollar sign, backquote or backslash, and is encrypted under the passphrase that the pod's environment
  holds for its role. Image IDs and listed file names are plain words. The post-start hook runs the script.
- The exec stream is a terminal's (`internal/k8s/cmd.go:40`): what a command prints comes with CR LF, and so do stored keys.
- gorilla/mux: a subrouter's template is its parent's, without trailing slashes, followed by its own path.

## Where the code does not do what it seems meant to do

- `createRootKey` leaves `Targets` nil, `DeepCopy` keeps it nil, and `AddTargetKey` writes into it, which panics
  (`pkg/controller/controller.go:197`). Only after somebody else has made the map can a new target key be stored.
- The image of a request and the endpoint go unquoted into texts for `sh -c` (`pkg/controller/commander.go:71-86`,
  `internal/k8s/cmd.go:29-33`). A text is read as the one command meant exactly if all that is put into it are plain words
  (`Commands.ReadAsMeantIff`). Otherwise an answer need not mean anything: for the image "real.tar; echo x" and a registry at
  reg.io the shell signs "reg.io/real.tar", prints "x:" and ends well, so the request can be answered with Success although it
  has no tag and nothing was signed under its name. What is said below about a Success and what docker did for it holds of
  legible requests, whose archive path and reference are plain words.
- A request whose registry cannot be looked up, or that leaves its name or namespace empty, gets a nil `RegCtl`
  (`pkg/registry/registry.go:28-36`), on which `GetEndpoint` panics (`pkg/registry/registry.go:45`).
- For an image without a tag the reference made of it ends in its colon, which docker refuses
  (`pkg/controller/controller.go:246`): "alpine" is never signed, "alpine:latest" can be.
- The resource definitions let a signer's name be empty, or too long for a pod's name to be made of it; such requests fail too.
  So do requests for a clean image that name no claim: `SignImage` looks for the archive below a mount that `WithPvc` then leaves
  out (`internal/schemes/dind_pod_scheme.go:46-48`). `ProtocolSuccess.SuccessPossibleIff` gives the exact condition.
- Two requests for one new image can lose a key: if both look before either patches, both get their Success, and the second
  patch replaces the key the first one was signed with (`controllers/imagesignrequest_controller.go:85-94`,
  `pkg/controller/controller.go:199`). What is stored under a target name is exactly the last key written under it.
- `TrimLeft(v, "https://")` removes a set of characters, not a prefix (`pkg/registry/registry.go:47`): the host survives
  exactly if it does not begin with one of them.
- `Start` returns nil if the pod's name is taken (`pkg/controller/controller.go:92-94`): the request is then not answered at
  all, and the deferred Close deletes the pod of that name, whoever made it (`pkg/controller/controller.go:117-118`).
- A signer whose key was stored is never marked created if the reply to Create was lost, the update of its status was refused,
  or the process died in between: every later run finds the key and leaves the status as it is
  (`controllers/imagesigner_controller.go:60-66`).
- `ParseImage` drops what follows a second colon, so a registry port in an image name cuts off its tag: name and tag are
  recovered exactly if neither has a colon.
- A `..` in an image name leads to target names of other registries: the parts of a target name can be read off it exactly
  if the image is clean.
- `dindPod` does not use the container name it is given. `main.go:60` overwrites OPERATOR_NAMESPACE with "reg-test".

## Model

| member | source | states |
|---|---|---|
| ProtocolTheorems.ResponseWriteOnce | controllers/imagesignrequest_controller.go:51-60 | over all interleavings, a stored response is in every later version of its request at every later time, and the spec never changes |
| ProtocolTheorems.LateWriterConflicts | controllers/status.go:32-38 | a run that still wants to answer a request with a stored response fails the compare-and-swap |
| ProtocolTheorems.SuccessImpliesStoredKey | controllers/imagesignrequest_controller.go:85-94 | a Success comes with an entry for the request's target name in its signer's key, and the name has an entry at every later time, however stale the run's read was |
| ProtocolTheorems.SuccessMeansSigned | controllers/imagesignrequest_controller.go:97-125 | a Success comes with one pod of a run that answers this very request; the pod ran, and in it the texts of load, list, tag and sign ended well in this order, the ID tagged being the first one listed and the name that of the registry its run had found; it was started with the root key and root passphrase that are the signer's at every later time, and a version of the signer's key has a key k under the target name. If the request is legible and the keys restored are safe, the shell read every text as meant, docker took each command that succeeded, and k is the key the pod was given or generated |
| ProtocolTheorems.TextsReadAsMeant | internal/k8s/cmd.go:29-33 | over all runs, in every pod that makes a root key, and in every pod of a legible request with safe keys, the shell reads each text as the one command meant |
| ProtocolTheorems.RootImmutable | pkg/controller/controller.go:207-222 | all versions of a signer's key, at all later times, have one root, whatever lookups were stale or falsely missing |
| ProtocolTheorems.CreatedMeansStored | controllers/imagesigner_controller.go:54-66 | a status with Created never changes again, and its RootKeyID is the ID of the stored root then and later |
| ProtocolTheorems.KeyProvenance | pkg/controller/controller.go:126-160 | every root, and every target key but those that an outside write brought in or that were read in a pod gone astray, came whole from one file generated in one pod, as a terminal prints it, with the passphrase that pod held for its role; it passes the guards of Start, is shell-safe, has a 12-character passphrase, and a target's file is not the root's |
| ProtocolTheorems.SigningPodRestored | pkg/controller/controller.go:58-89 | every signing pod is started with its signer's root and, unless it is to make one, the target key stored under the request's target name; if that is none of the exempt keys, its script, run by a shell, leaves each key's text at the path ReadKey reads, neither over the other |
| ProtocolTheorems.PodConservation | controllers/imagesignrequest_controller.go:107-113 | a live signing pod belongs to a run that has still to delete it, failed to delete it, or died; a run that is over has asked for the deletion |
| ProtocolLoss.StepEntry | pkg/controller/controller.go:187-205 | an event changes the key stored under a target name exactly if it is an outside write of that name or the patch of a run for that signer and name, and then to exactly the key written |
| ProtocolLoss.EntryIsLastWritten | pkg/controller/controller.go:187-205 | over all runs, what is stored under a target name is the last key so written after any point, and else what was stored there |
| ProtocolLoss.PatcherLooked | controllers/imagesignrequest_controller.go:85-94 | a run that is about to patch had looked at a stored version of the key with targets and without its name |
| ProtocolLoss.SuccessKeepsKey | controllers/imagesignrequest_controller.go:85-94 | the key a Success came with stays, as it is, for as long as nobody writes under its target name |
| ProtocolLoss.PatchedKeyStays | pkg/controller/controller.go:199 | the key a run patches in is the one stored from then on, until the next write under its name |
| ProtocolLoss.ExemptIff | pkg/controller/controller.go:187-205 | a target key becomes one of those of which nothing is known exactly by an outside write that brings it in, or by the patch of a run whose pod has gone astray |
| ProtocolSuccess.SuccessLosesItsKey | controllers/imagesignrequest_controller.go:85-141 | for every answerable request: a second one for the same image, whose run looked before the first patched, gets its Success too and replaces the first one's key |
| ProtocolLoss.CreatedWithinReachIff | controllers/imagesigner_controller.go:60-66 | a signer whose key is stored can still come to be marked created if and only if it is, or a run on its way out holds the mark and the version it read is still the last |
| ProtocolLoss.ForeignPodDeletedIff | pkg/controller/controller.go:117-118 | somebody else's pod is deleted exactly when a run closes whose own pod was never created and whose pod's name it has |
| ProtocolRuns.RunKeepsInv | controllers/imagesignrequest_controller.go:44-143 | every run of the whole machine keeps the invariant and only extends histories, pods and runs |
| ProtocolRuns.EveryActOK | pkg/controller/controller.go:58-263 | every possible answer to every call of either reconciler keeps the run's part of the invariant |
| ProtocolFlow.RunsEnd | pkg/controller/controller.go:98-112 | every answered call brings a run nearer its end, with 60 tries for the pod and one read for each listed key file, so no run calls for ever |
| ProtocolFlow.ActFollows | controllers/imagesigner_controller.go:58-101 | which call may follow which, with which effect, status and panic |
| ProtocolLimits.NoSuccessWithoutOutsideTargets | pkg/controller/controller.go:194-199 | in a run where only the operator writes a signer's targets they stay nil, and no request for that signer is ever answered with Success |
| ProtocolPanics.NoAnswerIff | controllers/imagesignrequest_controller.go:99-142 | a sign run that is over left no answer if and only if it found its pod's name taken or panicked, and it panicked if and only if the last command in its pod listed an image and it had no registry, or read the target key and the signer key it had read has no targets |
| ProtocolPods.PodsArePlaced | pkg/controller/commander.go:29-41 | over all runs, a pod that serves a request is in that request's own namespace, and one that makes a root key in "reg-test"; its name is image-signing-by-<signer>- and ten random characters |
| ProtocolPods.SuccessTexts | pkg/controller/controller.go:224-263 | over all runs, before a Success for the image name:tag in a registry at https://host, the texts that load /tmp/name.tar, list, tag the first ID listed as host/name:tag and sign host/name:tag ended well, first of all in one pod and in this order |
| ProtocolPods.RefWithoutHost | pkg/controller/controller.go:243-246 | without a URL the reference is the image itself |
| ProtocolAnswers.NoSuccessWithoutRegistry | pkg/registry/registry.go:28-46 | a request without a registry name or namespace is never answered with Success |
| ProtocolAnswers.NoSuccessWithoutTag | pkg/controller/controller.go:243-256 | a request whose image has no tag is never answered with Success, if its runs are legible and restore safe keys |
| ProtocolAnswers.SuccessMeansAnswerable | controllers/imagesignrequest_controller.go:97-141 | every Success was given by a run of that request that found its registry, and all that the request names has proper names; if it is legible and the run's restored keys are safe, it is answerable with the annotations the run found |
| ProtocolAnswers.ImageTakenIff | pkg/controller/controller.go:243-246 | for a registry at a proper host and a clean image name, docker takes the reference exactly if every component of the name and the tag are proper and the whole, with its registry spelled out, is not too long |
| ProtocolAnswers.ArchiveHeldIff | internal/schemes/dind_pod_scheme.go:44-67 | the archive of a clean image is /tmp/<name>.tar, and it is below a mount of the pod exactly if the request names a claim and that is a path a file can have |
| ProtocolSuccess.SuccessPossibleIff | controllers/imagesignrequest_controller.go:97-141 | for given registry annotations, a legible request can be answered with Success in some run whose pods restore safe keys if and only if it has a proper name, names its registry, signer, secrets and volume properly, the signer's name leaves room for a pod's, the archive has a plain path below a volume it mounts, and the image is a tagged reference under the registry's endpoint; the request's condition implies that it is legible, and no request has a Success without the proper names |
| ProtocolAstray.LegibleIff | pkg/controller/commander.go:71-86 | for a clean image and an endpoint without a path: a request is legible exactly if endpoint, image name and tag are without characters of the shell's own and the endpoint starts with neither "#" nor "~" |
| ProtocolAstray.UntaggedSucceeds | pkg/controller/commander.go:83-86 | for the image "real.tar; echo x" at reg.io docker would refuse the reference, but the sign text is read as the signing of another one and an echo, and the request can be answered with Success |
| ProtocolKeys.FoundFile | pkg/controller/controller.go:139-153 | a file with the line of the run's role was generated in its pod, in that role, under the passphrase the run drew |
| ProtocolKeys.FoundElsewhere | pkg/controller/controller.go:146-151 | unless the pod has gone astray, a new target key's file never has the place of the restored root key's |
| ProtocolKeys.PatchEffect | pkg/controller/controller.go:187-205 | the patch of a run, computed from a maybe stale key, gives the current key with exactly the new entry, and keeps the root and all other entries |
| Reconcilers.ReconcileRequest | controllers/imagesignrequest_controller.go:44-143 | it reads the request and serves exactly what is to be served: it makes no other call if and only if the read fails or the version found has a response, and otherwise its run works on the version found; the method takes only steps of the machine; it ends done or killed, with its pod's deletion asked for and every Success justified; a panic leaves no answer, and a return leaves none exactly if the pod's name was taken; if the last call, the status update, is accepted, the request has the answer in hand |
| Reconcilers.ServeRequest | controllers/imagesignrequest_controller.go:60-78 | without a pod the last call was the failed lookup of the signer or of its key, and the response is a failure with its error; with one both were found, the root, target key and secrets used are those that the stored version of the key and the request call for, and a failure carries the error of the last call before the pod was closed |
| Reconcilers.SignWithKey | controllers/imagesignrequest_controller.go:80-113 | the run's pod has the signer's root, the request's secrets and volume, and the target key stored under the target name or else a new passphrase; its deletion is asked for on every end, a return leaves no answer exactly if the pod's name was taken, and a failure carries the error of the last call before that |
| Reconcilers.TargetKeyFor | controllers/imagesignrequest_controller.go:82-94 | the stored target key if there is one, else a new key with a passphrase only, to be added |
| Reconcilers.UseSigningPod | controllers/imagesignrequest_controller.go:115-142 | a return leaves no answer exactly if the pod's name was taken; a failure carries the error of the last call; before a Success the four texts for the request's image, in the controller's registry, were handed to the shell; a panic leaves no answer and comes only of a nil registry or nil targets |
| Reconcilers.ReconcileSigner | controllers/imagesigner_controller.go:43-102 | the same for signers: read, served exactly if the version found is not marked created; only steps of the machine, pod deletion asked for, Created only with the stored root's ID, and the status in hand stored if the update is accepted |
| Reconcilers.ServeSigner | controllers/imagesigner_controller.go:60-82 | without a pod the first and only call found a key, and the status is as it was; otherwise it found none, the pod was asked for with a new root passphrase and no other options, its deletion is asked for on every end, and the status in hand is Created with the stored root's ID or a failure with its reason |
| Reconcilers.UseRootPod | controllers/imagesigner_controller.go:84-101 | the status in hand is "dind pod is not running" if the name was taken, and else either Created, with the ID of the root that is stored, or the error of the last call |
| Controller.CollectOptions | pkg/controller/controller.go:59-77 | the environment and commands collected key by key: exactly docker's two variables, each exactly if its key has a passphrase; a command for each key with ID and text, the login command last, letter by letter |
| Controller.SigningController.Start | pkg/controller/controller.go:58-115 | the pod created has the default image, the controller's name and namespace, exactly the volumes, environment and script that the options call for; it returns nil with the pod running, seen within sixty looks, or with the name taken; "pod is not running" comes of exactly sixty looks, any other error of the last call |
| Controller.SigningController.Close | pkg/controller/controller.go:117-124 | the pod that Start asked for is deleted, also somebody else's of its name, and the run goes on whether or not that worked |
| Controller.SigningController.ReadTrustKey | pkg/controller/controller.go:126-160 | the directory is listed and then the listed files are read, in their order and no others; of these exactly those up to the first with the line of the role, "role: root" or "role: target"; the key returned has that file's name, its text and the phrase's passphrase for the role; "key file not found" means that no listed file has the line |
| Controller.SigningController.SignImage | pkg/controller/controller.go:224-263 | the texts handed to the shell are those that load, list, tag and sign the image named, the ID tagged being the first one listed, as many of them as answers came, four on return; "image is not found" means that the image list was empty; a panic comes only of a nil registry, and a return only without one |
| Controller.SignTextsAre | pkg/controller/controller.go:224-263 | for a clean image and an endpoint without a path these four texts, letter by letter: the archive is /tmp/<name>.tar, the reference <endpoint>/<name>:<tag> |
| Controller.SigningController.AddTargetKey | pkg/controller/controller.go:187-205 | reads the target key and patches it in: on return the key stored at that moment has it under the target name and is otherwise as it was, and so are all other signers' keys; the original in the cache is left alone; a panic comes only of nil targets, and a return only without them |
| Controller.SigningController.CreateRootKey | pkg/controller/controller.go:162-185 | makes the directory, generates, lists, reads and stores a root key, with these texts in this order; on return the stored signer key is exactly the root read, with the phrase's root passphrase and nil targets, and the status in hand carries its ID |
| Controller.NewSigningController | pkg/controller/controller.go:33-42 | the pod is called image-signing-by-<signer>- and ten random characters, its namespace is that of the request or else "reg-test", and the registry is nil if the name or the namespace is empty, and else what the lookup found |
| Controller.SigningController.GenerateRootKey | pkg/controller/commander.go:48-56 | two texts, "mkdir -p" of the directory first, then "docker trust key generate root", the second only after the first succeeded |
| Operator.Cluster.UpdateRequest | controllers/status.go:32-38 | a compare-and-swap, made in a state that others have led to and in which the run is where it was: it returns without error only if the version the run read is the last of that state, and then the last version has the response in hand; with an error that state is left or the swap was made; the run is over either way |
| Operator.Cluster.UpdateSigner | controllers/status.go:11-17 | the same compare-and-swap for the status of a signer |
| Objects.SignerKey.DeepCopy | api/v1/zz_generated.deepcopy.go:469-485 | a fresh object with the same spec and a fresh map; a nil map stays nil |
| Objects.TargetMap.Copy | api/v1/zz_generated.deepcopy.go:528-538 | the map copied entry by entry, in any order, is a new map with the same entries |
| Objects.CopyWithTarget | pkg/controller/controller.go:194-197 | the copy has the one entry more, the original is unchanged, so the patch for a new name is not empty; nil targets panic |
| Objects.ImageSigner.DeepCopy | api/v1/zz_generated.deepcopy.go:155-161 | the copy shares the status pointer |
| Objects.ImageSignRequest.DeepCopy | api/v1/zz_generated.deepcopy.go:65-71 | the copy shares the response pointer |
| Objects.ImageSigner.MakeStatus | controllers/status.go:19-30 | the status is a new allocation: a success carries the key's ID and no reason, a failure no ID |
| Objects.ImageSignRequest.MakeResponse | controllers/status.go:40-49 | the response is a new allocation with the result and reasons given |
| Objects.AnswerOnCopy | controllers/status.go:41 | answering on a copy leaves the cached request's response as it was |
| Objects.StatusOnCopy | controllers/status.go:20 | writing a status, of success or failure, on a copy leaves the cached signer's status as it was |
| MergePatch.DiffThenMerge | pkg/controller/controller.go:195-199 | the patch computed from two objects, applied to the first, gives the second |
| MergePatch.DiffEmpty | pkg/controller/controller.go:195-199 | a patch is empty if and only if nothing changed |
| MergePatch.MergeIdempotent | pkg/controller/controller.go:199 | applying a patch twice is applying it once |
| MergePatch.DisjointCommute | pkg/controller/controller.go:199 | patches without a common member commute on every document |
| SignerKeyJson.TargetPatchIs | pkg/controller/controller.go:194-199 | the patch for a new name is exactly that one entry, with the three members of the key |
| SignerKeyJson.StoredMembers | api/v1/signerkey_types.go:27-42 | which member of a stored object holds what: "root", "targets" unless nil, and "id", "key" and "passPhrase" of each key |
| SignerKeyJson.PatchExact | pkg/controller/controller.go:194-199 | applied to any later version of the key, whatever its metadata, the patch changes exactly that entry |
| SignerKeyJson.PatchesCommute | api/v1/signerkey_types.go:31-34 | patches for different target names commute on every document, so no concurrent addition is lost |
| SignerKeyJson.KeyReplaces | api/v1/signerkey_types.go:38-42 | racing patches for one name leave one of the two keys whole |
| SignerKeyJson.DecodeStored | api/v1/signerkey_types.go:27-42 | reading back a stored key loses nothing, nil targets included |
| Shell.ScriptRoundTrip | internal/schemes/dind_pod_scheme.go:70-77 | a quote-aware reader of the joined script recovers exactly the commands that were joined |
| Shell.StoreReads | pkg/controller/controller.go:52-56 | for a safe name and quotable contents the printed command is read as echo of exactly the contents into the key's path |
| Shell.KeyPathInjective | pkg/controller/commander.go:65-68 | keys with different plain IDs have different paths |
| Shell.KeyPathIs | pkg/controller/commander.go:65-68 | a key with a plain ID has its file in /root/.docker/trust/private, under that ID |
| Commands.TextIs | pkg/controller/commander.go:46-92 | every command's text, letter by letter |
| CommandOptions.ScriptCommands | pkg/controller/controller.go:66-77 | the reader recovers the whole command list of a pod's script, in order |
| CommandOptions.ScriptText | internal/schemes/dind_pod_scheme.go:70-87 | the whole post-start script, letter by letter: a key is restored exactly if it has an ID and a text |
| CommandOptions.EnvironmentIs | pkg/trust/trust.go:10-21 | the environment has exactly docker's two variables, each exactly if its key has a passphrase, with that passphrase |
| CommandOptions.ScriptRestoresKeys | pkg/controller/controller.go:62-77 | running the script leaves every key's text and a newline at its path, the login file copied if there is one, and everything else as it was |
| DindPod.Pod.Apply | internal/schemes/dind_pod_scheme.go:28-146 | what each option adds to the pod, in place, and what it leaves alone: the claim at /tmp, the login secret at /home/dockremap, the certificates at /usr/local/share/ca-certificates |
| DindPod.Pod.AddEnv | internal/schemes/dind_pod_scheme.go:33-41 | in every iteration order the entries appended are the map's, each once |
| DindPod.NewDindPod | internal/schemes/dind_pod_scheme.go:16-24 | the options are applied one after the other to a new privileged pod with the image given or else the default one |
| DindPod.StartPodWellFormed | pkg/controller/controller.go:79-89 | for all options a source is mounted at a path if and only if it is the claim at /tmp, the login secret at /home/dockremap or the certificate secret at /usr/local/share/ca-certificates, and named; volumes and mounts correspond one to one; the environment has exactly the two variables, each once; the script is that of the options |
| DindPod.LoginFromSecret | pkg/controller/controller.go:75-77 | with a login secret the script's last command copies a file from below the place where that secret is mounted |
| Naming.TargetNameInjective | pkg/trust/trust.go:39-41 | for plain registry names and namespaces and clean images, target names are equal if and only if all three parts are |
| Naming.TargetNameCollision | pkg/trust/trust.go:39-41 | with a ".." in the image it is not so: such an image has the target name of another registry's |
| Naming.TargetNamePlainIff | pkg/trust/trust.go:39-41 | a target name is its parts joined by slashes if and only if the image is clean |
| Naming.TagsShareTarget | controllers/imagesignrequest_controller.go:151-158 | images that differ only behind the first colon share one target key, that of the image's name in their registry |
| Naming.RequestTargetName | controllers/imagesignrequest_controller.go:151-158 | for plain registry names and a clean image, with whatever tag, the target name of a request is namespace, registry name and image name, joined by slashes |
| Naming.RequestTargetsIff | controllers/imagesignrequest_controller.go:151-158 | two such requests have one target name if and only if namespace, registry name and image name are the same |
| Naming.ParseImageInverts | internal/utils/image.go:5-18 | name and tag without colons are recovered, and what follows a second colon is dropped |
| Naming.ParseImageIff | internal/utils/image.go:5-18 | name and tag are recovered if and only if neither has a colon |
| Naming.EndpointIs | pkg/registry/registry.go:44-52 | for any annotations the endpoint is the URL without its longest beginning of characters of "https://", and empty without a URL |
| Naming.EndpointOfUrl | pkg/registry/registry.go:44-52 | of a URL with https, http or no scheme the endpoint is the host if and only if the host does not begin with a character of "https://" |
| Strings.FieldsAppend | pkg/controller/controller.go:135 | a blank parts the words in front of it from those behind it |
| Strings.FieldsOfJoined | pkg/controller/controller.go:235 | words with any blanks between them come back exactly, in their order |
| Strings.FieldsOfListing | pkg/controller/controller.go:128-137 | a listing, one name a line, comes back from the terminal name by name |
| Strings.ContainsIff | pkg/controller/controller.go:146 | a text has the line if and only if that stands somewhere in it |
| Paths.CleanLeads | pkg/trust/trust.go:39-41 | path.Clean keeps where a path leads, from every directory, and leaves names only, with ways up in front of them unless the path starts at the top |
| Naming.AssignNewPass | pkg/trust/trust.go:31-37 | a random passphrase of 12 characters under the variable docker reads for the role, and nothing else changed |
| Naming.NewRandomString | internal/utils/rand.go:9-19 | as many characters as asked for, all lower-case letters or digits |
| ProtocolKeys.GoodKeyRestores | pkg/controller/controller.go:64-69 | a key as the operator makes them passes the guards of Start and goes through the shell unchanged |
| Commands.ReadAsMeantIff | pkg/controller/commander.go:40-86 | for every command: the shell reads its text as the one command meant, with its arguments as they are, if and only if all that is put into the text are plain words |
| RouteTree.RouterWrapper.constructor | internal/wrapper/wrapper.go:24-30 | a new node has no parent, no children and no router |
| RouteTree.RouterWrapper.Add | internal/wrapper/wrapper.go:32-61 | for every child, also one of another tree or the root of one, it fails exactly for no child, a child with a parent or a bad sub-path, and then changes nothing; else the tree with the child is a finite acyclic tree again, with the child last, its subrouter and both its routes |
| RouteTree.NewServerRoot | pkg/apiserver/server.go:39-41 | the server's root alone is such a tree, at "/", and its router has the one route "/" |
| RouteTree.TemplateIs | internal/wrapper/wrapper.go:48 | a subrouter's template is its router's, without the slashes at its end, followed by the path |
| RoutePaths.FullPathCollapsesOnce | internal/wrapper/wrapper.go:63-70 | FullPath is one collapse of the joined sub-paths from the root, and has no double slash |
| RouteTree.CollapsePair | internal/wrapper/wrapper.go:63-70 | one slash too many makes no difference to what slashes collapse to, wherever it is |
| RoutePaths.FullPathIsRegisteredPrefix | internal/wrapper/wrapper.go:48-57 | for clean sub-paths FullPath is the prefix chain under which Add registered the node |
| RoutePaths.TraversalVisitsEachOnce | pkg/apiserver/server.go:104-106 | the traversal from the root meets every node of the tree exactly once |
| RoutePaths.PreorderExact | pkg/apiserver/server.go:99-107 | the traversal from any node meets exactly the nodes of its subtree, each once |
| RoutePaths.PreorderOrdered | pkg/apiserver/server.go:99-107 | it meets parents before their children and the subtrees of the children one after the other |
| RoutePaths.PathsAreListed | pkg/apiserver/server.go:99-107 | what is collected is the list of the full paths of exactly the handled nodes met, in that order |
| RoutePaths.AddPath | pkg/apiserver/server.go:99-107 | the recursion ends and appends these paths, leaving the earlier part of the list as it was |
| RoutePaths.RootHandler | pkg/apiserver/server.go:91-97 | the answer is the list of the full paths of exactly the handled nodes of the tree, each once, parents before children and the subtrees of the children one after the other |

## Left out

- Real API client calls, the exec stream, TLS, HTTP handlers and access checks of the API server: foreign calls or single branches.
- Docker, notary and cryptography: a key file is its text, its role and the passphrase it is encrypted under.
- Clocks: `createdAt` of a signer's state and the sleep between two looks at the pod are not modelled.
- Owner references and labels of stored keys, and logging.
- The matching rules of gorilla/mux: only the accumulated path prefixes are kept.
- Liveness such as "every request is answered": the reconcilers ask for no retry and drop the errors of their status updates.
- The caching client and the manager: their effect on one run is the choice of an old version, or none, at each Get.
- Registry types, manifests, access rules and other generated copies: no behaviour.
- ProtocolTheorems.KeyProvenance: exempts target keys that an outside write brought in or changed, and those read in a pod gone astray, because nothing is known of their contents; `ProtocolLoss.ExemptIff` says exactly which these are.
- ProtocolTheorems.SigningPodRestored: is silent for such a target key, for the same reason.
- ProtocolTheorems.SuccessMeansSigned: of a request that is not legible it says only that the texts ended well, since nothing more is true.
- ProtocolAnswers.NoSuccessWithoutTag: has the condition that the shell does what is meant; `ProtocolAstray.UntaggedSucceeds` shows a Success without it.
- ProtocolAnswers.SuccessMeansAnswerable: the same.
- ProtocolSuccess.SuccessPossibleIff: decides legible requests; of the others some can be answered with Success and some cannot, as the rest of the shell's language has it. What the claims and secrets named hold, and whether a registry answers at the endpoint, is the environment's, which may be as good as it can be.
- Commands.ReadAsMeantIff: words with the characters of patterns count as not plain, though a shell leaves them as they are if no file matches.
- ProtocolLimits.NoSuccessWithoutOutsideTargets: goes one way; that such a write makes Success possible is what the run of ProtocolSuccess shows.
- Shell.StoreReads: goes one way; of text with a double quote, dollar sign, backquote or backslash the reader only says that it is outside its part of the language.
- Reconcilers.ReconcileSigner: takes signers with a non-empty name, as the API has no others.
- Reconcilers.ServeSigner: draws the passphrase before the pod name, the code after it; nothing depends on the order of two random draws.
