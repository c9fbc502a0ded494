# Entry task backend: a Dafny model

The repository is a small login and profile service with its deployment tooling. This project models
the parts of it that are hard to get right and proves what they promise, for all inputs and all runs.

- **Reconcilers.** `ClusterState` and `ClusterApi` model the Kubernetes API as a mutable object. Each
  call first lets users and the rest of the cluster act, then may fail, with or without having taken
  effect. Every state passed through is recorded and proved good; write calls, effective Pod writes and
  failed calls are counted per entry. `PodPlan` says what a pass over the Pods is for; `PodReconciler`, `Finalizers`,
  `Reconcilers` and `Controllers` are the code of the operator and of the client-go controller, which
  share one design. `c.calm` is any set of entries that nobody but the controller acts on: convergence,
  isolation and quiescence are stated for each of them, whatever happens to all other entries, and
  safety for every entry.
- **Profile pictures.** `PictureCache`: database row, file and version-keyed Redis entry under any
  interleaving, one SQL, file or Redis statement at a time.
- **TCP worker pool.** `WorkerPool`: connection handlers, bounded queue, workers and reply slots as a
  transition system.
- **Sessions and tokens.** `Base64Url`, `Tokens`, `RedisKeys`, `Sessions`.
- **Wire formats.** `Frames` (length-prefixed frames) and `Resp` (RESP2).
- **Seeder.** `Seeder`: concurrent batches over 1..count.

`Wrappers`, `Strings` and `Decimal` are shared helpers.

## What the proofs found

- Two overlapping uploads of one user can leave the first picture cached under the second one's version
  until that entry is evicted, because the UPDATE and its read-back are two statements
  (`PictureCache.OverlapBreaksCoherence`). An upload reads its own version back exactly if no other
  UPDATE of the user took effect in between (`PictureCache.ReadBackIsOwn`), and only a save that read
  another version back can make the cache wrong (`PictureCache.SaveKeepsCoherence`,
  `PictureCache.OnlySavesMisfile`).
- When an UPDATE takes effect but is reported as an error, or its read-back fails, the clean-up removes
  the file that the row now names. Without such a failure every row keeps its file on every run; the
  first one is a single clean-up away from losing it (`PictureCache.RunKeepsFiles`,
  `PictureCache.FirstFailureLosesFile`, reached in `PictureCache.FailedReadBackLosesFile`).
- A session works up to two seconds before issue time plus ttl and not always longer: the token's expiry
  is cut to a whole second, and Redis may drop the entry almost a second before that
  (`Sessions.Window`, `Sessions.WindowIsTight`).
- A Login that answers an error leaves a working session behind exactly if the command reached Redis:
  when only its confirmation is lost, or when the profile read after it fails
  (`Sessions.SessionService.Login`).

## Model

| member | source | states |
|---|---|---|
| ClusterState.ObjectKeysInjective | cloud_native_entry_task/controllers/internal/controller/resources.go:214-229 | two different entries never share a ConfigMap or Service name, and the two kinds never meet |
| ClusterState.HashInputTells | operator/internal/controller/dbcpentryservice_controller.go:363-418 | two versions of an entry have the same hash input exactly if they agree on target database, target Redis, port, image, resources, name and uid: replicas and bookkeeping make no rollout |
| ClusterState.MadeForItsEntry | operator/internal/controller/dbcpentryservice_controller.go:300-359 | a Pod made for an entry is selected for that entry and for no other, owned by it, and runs its image and resources |
| ClusterState.ServiceReachesOwnPods | cloud_native_entry_task/controllers/internal/controller/resources.go:67-115 | the Service of an entry listens on the wished port, and its selector matches the Pods made for that entry and none made for another |
| ClusterState.EnvKeepsGood | operator/internal/controller/dbcpentryservice_controller.go:158-192 | whatever users edit, create or delete between two calls, cleanup safety, numbering and the rollout invariant survive |
| ClusterApi.Cluster.UpdateEntry | cloud_native_entry_task/controllers/internal/controller/controller.go:127-145 | an update takes effect only on the very version that was read; the finalizer may be dropped only when nothing live of the entry is left |
| ClusterApi.Cluster.DeletePod | operator/internal/controller/dbcpentryservice_controller.go:251-265 | a delete that reports success or not-found leaves no live Pod of that id, takes at most that Pod from its own entry's slice, counts as one write exactly if it took effect, and keeps every state good |
| ClusterApi.Cluster.CreatePod | operator/internal/controller/dbcpentryservice_controller.go:288-295 | a created Pod is new, belongs to a guarded entry and loads whatever its ConfigMap holds at that moment, which is what its hash was computed from |
| ClusterApi.StoreKeepsGood | operator/internal/controller/dbcpentryservice_controller.go:76-97 | storing an entry keeps cleanup safety, also when it makes the entry disappear |
| ClusterApi.AddFrame | cloud_native_entry_task/controllers/internal/controller/resources.go:214-229 | a new Pod shows up in its own entry's slice and in no other |
| ClusterApi.DeleteFrame | cloud_native_entry_task/controllers/internal/controller/resources.go:214-229 | marking a Pod as deleting takes it out of the slices that had it and changes nothing else |
| ClusterApi.ObjectFrame | cloud_native_entry_task/controllers/internal/controller/resources.go:31-115 | writing or deleting an entry's ConfigMap or Service leaves the slices of all other entries as they were |
| PodPlan.DropStale | operator/internal/controller/dbcpentryservice_controller.go:247-267 | deleting a terminated or wrong-hash Pod lowers the distance to the wish by exactly 1 |
| PodPlan.DropSurplus | operator/internal/controller/dbcpentryservice_controller.go:276-285 | deleting a surplus Pod lowers the distance by exactly 1 |
| PodPlan.AddMissing | operator/internal/controller/dbcpentryservice_controller.go:287-295 | creating a missing Pod lowers the distance by exactly 1 |
| PodPlan.OutcomeIsSettled | operator/internal/controller/dbcpentryservice_controller.go:233-298 | the declarative outcome (min(g,r) kept, max(0,r-g) made, none kept is newer than one removed) means distance 0 |
| PodPlan.SettledMeans | operator/internal/controller/dbcpentryservice_controller.go:251-265 | at distance 0 there are exactly as many Pods as wished, none in phase Failed or Succeeded, all labelled with the current hash |
| PodPlan.RunningCounts | operator/internal/controller/dbcpentryservice_controller.go:251-266 | a Pod with the current hash in phase Pending, Running or Unknown counts as a replica |
| PodPlan.StaleGoes | operator/internal/controller/dbcpentryservice_controller.go:251-265 | a Pod that failed, ended or carries another hash is gone after every completed pass |
| PodPlan.SettledStays | operator/internal/controller/dbcpentryservice_controller.go:233-298 | wherever a pass stops, Pods that were as wished are exactly as before |
| PodPlan.Rescale | operator/internal/controller/dbcpentryservice_controller.go:274-295 | going from one settled count to another keeps the smaller of the two counts, and all Pods when scaling up |
| PodPlan.ShapedOutcome | operator/internal/controller/dbcpentryservice_controller.go:269-295 | an oldest-first prefix of the counted Pods plus enough new ones is the declarative outcome |
| PodPlan.ShapedPartial | operator/internal/controller/dbcpentryservice_controller.go:276-295 | at any point of scaling: no Pod kept is strictly newer than a counted Pod removed, never fewer kept than wished, never more made than missing, no stale Pod left |
| PodPlan.SortByAge | operator/internal/controller/dbcpentryservice_controller.go:269-272 | the order is a permutation, oldest first; nothing is promised about equal timestamps and callers rely on nothing else |
| PodReconciler.PruneStale | operator/internal/controller/dbcpentryservice_controller.go:246-267 | on success exactly the stale live Pods are gone, each effective delete is paid for by the distance, and with none stale no call is made |
| PodReconciler.ScaleDown | cloud_native_entry_task/controllers/internal/controller/resources.go:146-153 | stopped anywhere, what is left is an oldest-first prefix; on success it has the smaller of both counts |
| PodReconciler.ScaleUp | cloud_native_entry_task/controllers/internal/controller/resources.go:154-161 | stopped anywhere, all additions are new fitting Pods; on success exactly the missing number was made |
| PodReconciler.ReconcilePods | operator/internal/controller/dbcpentryservice_controller.go:233-298 | the entry's effective Pod writes plus distance left equal the distance before; success means the declarative outcome, with as many Pods as wished and none in phase Failed or Succeeded; failure means an interrupted form of it, and only after a failed call; distance 0 means no write call; other entries see no call and, if calm, no change; every state on the way is good |
| Finalizers.FilterInPlace | cloud_native_entry_task/controllers/internal/controller/controller.go:133-141 | filtering through the shared backing array yields the list without the finalizer although it is overwritten while being read |
| Finalizers.WithoutElements | cloud_native_entry_task/controllers/internal/controller/controller.go:133-141 | the finalizer is gone and every other one occurs as often as before |
| Finalizers.WithoutSplits | cloud_native_entry_task/controllers/internal/controller/controller.go:133-141 | filtering distributes over concatenation, so the others keep their order |
| Finalizers.AddThenRemove | cloud_native_entry_task/controllers/internal/controller/controller.go:127-145 | removing the finalizer after adding it restores any list that lacked it |
| Reconcilers.EnsureObject | cloud_native_entry_task/controllers/internal/controller/resources.go:31-115 | success means the object is stored exactly as wished; an object already as wished draws no write, nor, for the operator, does one that another controller owns; nothing else of any entry moves |
| Reconcilers.CleanupPods | operator/internal/controller/dbcpentryservice_controller.go:158-178 | success means no live Pod of the entry is left, although Pods come and go meanwhile |
| Reconcilers.CleanupOwnedResources | operator/internal/controller/dbcpentryservice_controller.go:158-192 | success means nothing live belongs to the entry; the entry itself and all other entries are untouched |
| Reconcilers.NothingLeft | operator/internal/controller/dbcpentryservice_controller.go:158-192 | Pods gone, then Service gone, then ConfigMap gone adds up to nothing left at the end |
| Controllers.RemoveFinalizer | cloud_native_entry_task/controllers/internal/controller/controller.go:133-145 | removes exactly this finalizer, only from the version that was cleaned up; a concurrent edit is never overwritten |
| Controllers.AddFinalizer | cloud_native_entry_task/controllers/internal/controller/controller.go:127-131 | adds exactly this finalizer, only to the version that was read, also when success is reported as an error |
| Controllers.HandleDeletion | operator/internal/controller/dbcpentryservice_controller.go:76-88 | stopped anywhere, objects have only gone away and the entry is changed only once nothing live is left; on success the finalizer is gone, and the entry with it exactly if that was its last one |
| Controllers.Apply | operator/internal/controller/dbcpentryservice_controller.go:99-119 | ConfigMap and Service as they were or as wished, then the Pods: balanced writes, the outcome on success, no call if all is in place; the order matters, since Pods may be made only once the ConfigMap holds the hashed data |
| Controllers.Reconcile | operator/internal/controller/dbcpentryservice_controller.go:64-123 | one operator pass: every state is good, no other entry sees a call, a calm entry moves only as adoption, serving or deletion allow; an object another controller owns is left alone and stops the pass, which otherwise fails only after a failed call |
| Controllers.RunOperator | operator/internal/controller/dbcpentryservice_controller.go:64-123 | any sequence of passes over any entries, with users interfering: the recorded states only grow and are all good; a live calm entry gets at most as many effective Pod writes as its initial distance, and unless another owner was in the way has everything in place after more passes than failed calls, one more if it had to be adopted, whatever happens to other entries |
| Controllers.ReconcileCR | cloud_native_entry_task/controllers/internal/controller/controller.go:84-118 | success makes a calm entry a fixed point or completes its deletion; failure leaves an interrupted pass with balanced writes and happens only after a failed call or on an invalid spec, which changes at most the finalizer; no other entry sees a call |
| Controllers.ConvergedStays | cloud_native_entry_task/controllers/internal/controller/controller.go:84-118 | a fixed point draws no write of any kind and stays as it is, whether or not the pass succeeds |
| Controllers.ServedSettles | operator/internal/controller/dbcpentryservice_controller.go:99-119 | a successful pass leaves everything in place, and what is in place stays untouched by any pass |
| Controllers.ServeCR | cloud_native_entry_task/controllers/internal/controller/controller.go:103-117 | a served entry, failing anywhere, has each object as it was or as wished and balanced Pod writes; success means all in place, all in place means no write; an invalid spec means no call at all |
| Controllers.ReconcileAll | cloud_native_entry_task/controllers/internal/controller/controller.go:70-82 | each calm entry goes through its own pass, a relation on its own slice and counters alone, whatever the list order and whichever other entries fail; an entry not tried sees no call; after success exactly the existing entries were tried |
| Controllers.Run | cloud_native_entry_task/controllers/internal/controller/controller.go:54-68 | over any number of ticks the recorded states only grow and are all good; each live calm entry gets at most as many effective Pod writes as its initial distance, is converged for good after one successful pass, and if valid after more ticks than there were failed calls for it and failed lists; converged, it sees no write, whatever happens to other entries |
| Controllers.NoOrphans | operator/internal/controller/dbcpentryservice_controller.go:76-97 | at no point of a run is an entry gone or without the finalizer while a live managed Pod, Service or ConfigMap of it exists |
| Controllers.RolloutComplete | operator/internal/controller/dbcpentryservice_controller.go:300-418 | at any point of a run, a Pod of an entry whose Pods are as wished runs the current image and resources with the current target database, target Redis and port, and has neither failed nor ended, unless that Pod's own input collides with the current one |
| Controllers.ReplicasEditKeepsPods | operator/internal/controller/dbcpentryservice_controller.go:396-418 | editing only the replicas leaves the hash alone, keeps as many Pods as both counts allow and changes none of those |
| PictureCache.ExclusiveIsClear | internal/service/service.go:206-252 | at most one upload per user at a time implies the condition the coherence proof needs |
| PictureCache.ExclusiveRunIsClear | internal/service/service.go:206-252 | and so at every step of a run |
| PictureCache.ExclusiveCoherence | internal/service/service.go:206-294 | with at most one upload per user at any time the cache is coherent in every reachable state |
| PictureCache.StepKeepsInv | internal/service/service.go:206-294 | every statement of every reader and uploader, failing or not, keeps row, file, cache and all requests in flight consistent |
| PictureCache.InstallStep | internal/store/mysqlstore/store.go:134-150 | the UPDATE makes a version never used before and disturbs no reader that still holds an older row |
| PictureCache.CacheCoherence | internal/service/service.go:206-294 | on every run, each cache entry (user, v) is the picture installed as version v, and each picture shown is the one of the version its reader saw |
| PictureCache.GetReturnsCurrent | internal/service/service.go:254-294 | a successful GetProfilePicture returns the picture that was current at its own profile read, whatever happened since |
| PictureCache.ProfileFound | internal/service/service.go:254-264 | the profile read goes on to the cache exactly if a picture was ever installed for the user |
| PictureCache.FailureEnds | internal/service/service.go:206-294 | a statement that fails ends a Get in an error and an upload in its clean-up |
| PictureCache.GetAnswers | internal/service/service.go:265-294 | a reader whose own statements succeed comes closer to its answer with each and is never stuck or turned away, whatever others do, as long as no upload fails half-way |
| PictureCache.GetSucceeds | internal/service/service.go:254-294 | from the initial state on: a Get of a user who has a picture is answered after at most three more statements of its own, with the picture current at its profile read |
| PictureCache.UploadSucceeds | internal/service/service.go:206-252 | an upload whose own statements succeed is done after six of them, whatever others do |
| PictureCache.UploadAlone | internal/service/service.go:206-252 | what an undisturbed upload leaves: the next version in the row, its file, its cache entry, the old version's entry gone, nothing else changed |
| PictureCache.GetFromFile | internal/service/service.go:274-293 | without a cache entry a Get shows the file's content with the row's type, or the general one, and fills the cache |
| PictureCache.UploadThenGet | internal/service/service.go:206-294 | round trip: a Get after an upload shows exactly the uploaded picture, whether or not the save reached the cache |
| PictureCache.SaveKeepsCoherence | internal/service/service.go:245-250 | on any run, saving after an upload keeps the cache coherent if and only if the upload read its own version back or the one it read brought the same picture |
| PictureCache.OnlySavesMisfile | internal/service/service.go:206-294 | no other statement, reader's refill included, ever makes the cache wrong |
| PictureCache.VersionsCount | internal/store/mysqlstore/store.go:134-141 | a row's version counts the UPDATEs that took effect |
| PictureCache.ReadBackIsOwn | internal/store/mysqlstore/store.go:142-149 | an upload reads its own version back if and only if no UPDATE of the same user took effect since its own, whatever else happened |
| PictureCache.OverlapBreaksCoherence | internal/store/mysqlstore/store.go:142-149 | wherever a second UPDATE can slip in before the first one's read-back with another picture, a run leads to an incoherent cache |
| PictureCache.OverlapReached | internal/service/service.go:206-252 | two ordinary overlapping uploads lead to such a state |
| PictureCache.StepKeepsFiles | internal/service/service.go:233-244 | rows and uploads keep their files and no clean-up threatens one, exactly until an effective UPDATE is reported as an error or its read-back fails |
| PictureCache.RunKeepsFiles | internal/service/service.go:206-252 | on every run without such a failure each row has its file |
| PictureCache.FailureLosesFile | internal/service/service.go:237-244 | after such a failure the clean-up that follows leaves a row without its file |
| PictureCache.FirstFailureLosesFile | internal/service/service.go:237-244 | so on every run the first such failure is one clean-up away from the loss |
| PictureCache.FailedReadBackLosesFile | internal/service/service.go:237-244 | any user's first upload can end that way: the run from the initial state is given |
| WorkerPool.TokensStep | internal/service/tcp_server.go:106-157 | every step keeps each awaited job in exactly one of queue, worker and reply slot, and no other job anywhere |
| WorkerPool.StepKeepsInv | internal/service/tcp_server.go:81-158 | every step keeps the whole invariant: tokens, queue bound, execution log, answers in order |
| WorkerPool.RunKeepsInv | internal/service/tcp_server.go:42-158 | so does every run |
| WorkerPool.OwnAnswers | internal/service/tcp_server.go:81-158 | in every reachable state what was sent on a connection answers its own requests in request order, and no request was executed twice |
| WorkerPool.AllAnswered | internal/service/tcp_server.go:121-170 | in every reachable state replies delivered plus replies lost are as many as the requests that are over, and if none was lost the i-th reply answers the i-th request |
| WorkerPool.HandlerNeverBlocks | internal/service/tcp_server.go:96-120 | a frame to read can always be dealt with: refused exactly if malformed, enqueued exactly if there is room, turned away exactly if there is none, handed over exactly if a worker waits |
| WorkerPool.ServedAlone | internal/service/tcp_server.go:81-158 | a request from start to end: executed once, answered with its outcome under its own id, everything else as before |
| WorkerPool.AfterHangup | internal/service/tcp_server.go:88-95 | a connection that was given up reads and sends nothing for the rest of the run |
| WorkerPool.NeverRuns | internal/service/tcp_server.go:106-157 | a request that was read, is not waited for and was not executed never will be |
| WorkerPool.BusyIsFinal | internal/service/tcp_server.go:111-119 | a request turned away as server_busy is never executed, however the run goes on and whether or not the reply is delivered |
| WorkerPool.BusyReplyIsFinal | internal/httpapi/tcp_client.go:65-75 | a client that reads server_busy can rely on it for the rest of the run |
| WorkerPool.QueueInOrder | internal/service/tcp_server.go:106-136 | over every run the queue is what was put in less what was taken from the front: first in, first out |
| WorkerPool.OneShotCall | internal/httpapi/tcp_client.go:41-80 | a client that sends one request and reads one response reads the response to that request, though it never compares ids |
| WorkerPool.Conservation | internal/service/tcp_server.go:106-157 | handlers waiting = jobs queued + workers occupied + replies buffered |
| WorkerPool.SendNeverBlocks | internal/service/tcp_server.go:151-155 | a worker's reply always finds its one-slot channel empty |
| WorkerPool.Progress | internal/service/tcp_server.go:49-56 | while a handler waits, some worker or handler can move: no deadlock |
| WorkerPool.InternalStepWorks | internal/service/tcp_server.go:130-158 | each internal step does exactly one unit of the remaining work |
| WorkerPool.Drains | internal/service/tcp_server.go:106-157 | without new arrivals the internal steps end after at most that work, and then nobody waits |
| Frames.ReadFrame | internal/protocol/frame.go:14-31 | reads exactly one frame, with the stream's rest and the error as the parser of the format defines them |
| Frames.WriteFrame | internal/protocol/frame.go:33-50 | appends one whole frame, or refuses without touching the stream, or reports a failed write that left a part of the frame |
| Frames.HeaderUnique | internal/protocol/frame.go:14-31 | the four header bytes are determined by the length they encode |
| Frames.FrameRoundTrip | internal/protocol/frame.go:14-50 | a written frame followed by anything is read back and nothing beyond it is consumed |
| Frames.AcceptedIsFrame | internal/protocol/frame.go:14-31 | whatever is accepted is the frame of the payload returned, under the same limit, including limit 0 |
| Frames.StreamRoundTrip | internal/protocol/frame.go:14-50 | any list of frames written in a row is read back as that list with the rest untouched |
| Frames.StreamUnique | internal/protocol/frame.go:14-50 | a stream from which n frames are read starts with exactly their frames |
| Resp.ReplyRoundTrip | internal/store/redisstore/session.go:185-225 | on any well-formed reply, data with line breaks included, followed by anything, readReply returns its value and consumes exactly that reply |
| Resp.CutReply | internal/store/redisstore/session.go:185-225 | a well-formed reply cut off anywhere is reported as end of input, never as a value |
| Resp.MalformedReply | internal/store/redisstore/session.go:194-216 | an unknown mark, or a number with a character that is no digit, is an error |
| Decimal.ParseIntMeans | internal/store/redisstore/session.go:200-205 | numbers are read with or without a sign, within 64 bits, and refused beyond |
| Resp.CommandRoundTrip | internal/store/redisstore/session.go:173-183 | a written command decodes to exactly its arguments, whatever bytes they hold, and leaves the rest |
| Resp.ConverseReads | internal/store/redisstore/session.go:137-171 | against one reply per command the client reports the reply to its last command, or the first error before it |
| Resp.Connection.WriteCommand | internal/store/redisstore/session.go:173-183 | writes exactly the encoded command, or reports failure having only appended |
| Resp.Connection.Command | internal/store/redisstore/session.go:137-171 | sends AUTH and SELECT exactly when configured, then the command, each only after a reply that was no error; returns what the replies in turn mean, whether value, missing key or server error |
| RedisKeys.PictureKeyInjective | internal/store/redisstore/session.go:129-135 | a picture key determines user and version |
| RedisKeys.KindsDisjoint | internal/store/redisstore/session.go:120-135 | no session key is a picture key under the same prefix |
| RedisKeys.NameInjective | internal/store/redisstore/session.go:120-135 | different sessions or pictures have different names |
| RedisKeys.FlatRefinesTyped | internal/store/redisstore/session.go:120-135 | setting or deleting one name in the flat key space is setting or deleting one key of a typed map |
| Base64Url.RoundTrip | internal/service/token.go:57-71 | unpadded base64url decodes what it encodes and uses only its 64 letters, so never '.' |
| Base64Url.DecodeRefuses | internal/service/token.go:71-74 | the decoder refuses exactly characters outside the alphabet and a single letter left over |
| Base64Url.BreakIgnored | internal/service/token.go:71-74 | line breaks in the input make no difference |
| Tokens.TokenRoundTrip | internal/service/token.go:42-83 | an issued token verifies as its user exactly before its expiry second, and never for user 0 |
| Tokens.VerifiedIsSigned | internal/service/token.go:62-91 | whatever verifies is a payload, a dot and the encoded MAC of payload, version mark and payload length, and its claims name that user and have not expired |
| Tokens.VerifiedMac | internal/service/token.go:67-70 | the second of exactly two parts decodes to that MAC |
| Tokens.NotTransferable | internal/service/token.go:62-91 | without MAC collisions a signature fits no other payload |
| Tokens.IssueInjective | internal/service/token.go:42-60 | a token determines its user, expiry and nonce, so a fresh nonce makes a new token |
| Tokens.SignInputInjective | internal/service/token.go:85-91 | different payloads never give the MAC the same input |
| Sessions.Window | internal/service/token.go:47-79 | both expiries pass up to issue + ttl - 2s, and the token's never from issue + ttl on |
| Sessions.WindowIsTight | internal/service/service.go:163-168 | a session may be gone from Redis two nanoseconds after issue + ttl - 2s, so the bound is tight |
| Sessions.EntryOutlives | internal/store/redisstore/session.go:47-54 | whatever time passes before the entry is written, it outlives the last second before the token's expiry |
| Sessions.SaveMirrors | internal/store/redisstore/session.go:47-54 | setting through the hashed key keeps Redis the exact image of the live sessions |
| Sessions.DropMirrors | internal/store/redisstore/session.go:75-78 | so does deleting |
| Sessions.FreshToken | internal/service/token.go:42-60 | a token issued with an unused nonce is none of the live ones |
| Sessions.IssuedVerifies | internal/service/token.go:42-83 | an issued token is not blank and verifies as its user at every time before its expiry and at none after |
| Sessions.SessionService.SaveSession | internal/store/redisstore/session.go:47-54 | refuses exactly a ttl below one second, then leaving all sessions alone; otherwise adds this one session exactly if the command reached Redis, to be dropped when the ttl less a part of a second has passed, and reports an error exactly if that was not confirmed |
| Sessions.SessionService.Login | internal/service/service.go:159-178 | with other requests at work between its statements: which error is answered, and that the request saves one session for the user exactly if enough ttl was left and the command reached Redis, whatever is answered; with an unused nonce its token is new |
| Sessions.SessionService.Logout | internal/service/service.go:296-301 | whatever other requests do, this one drops this session and does nothing else, exactly if the token is not blank and the command reached Redis |
| Sessions.SessionService.GetSession | internal/store/redisstore/session.go:56-73 | finds the user of a live session that Redis has not dropped, and nothing else |
| Sessions.SessionService.RequireUser | internal/service/service.go:303-322 | with other requests between verification and GET: accepts a token as u if and only if, as Redis answered, Login had saved it for u, no Logout had removed it since and neither expiry had passed; works up to issue + ttl - 2s, never from issue + ttl on |
| Sessions.LiveMeansLastSaved | internal/store/redisstore/session.go:47-78 | a session is live exactly if the last command on its token saved it, with the user and times of that save |
| Seeder.MakeUsers | cmd/seed/main.go:96-113 | one user per id of the batch, in order, with its padded username and nickname |
| Seeder.UsernameInjective | cmd/seed/main.go:105-106 | different ids have different usernames, also beyond eight digits |
| Seeder.InsertAdds | internal/store/mysqlstore/store.go:152-169 | inserting a batch adds its usernames and no others and leaves existing rows as they are |
| Seeder.InsertedRow | internal/store/mysqlstore/store.go:158-164 | a new user is stored with the nickname and secret made for that id |
| Seeder.NamesMeans | cmd/seed/main.go:104-107 | usernames and nicknames end in the id, with at least eight digits and no leading zero beyond |
| Seeder.RunStores | cmd/seed/main.go:60-83 | over every schedule rows are never altered, and each new row has its id's nickname and a secret some worker supplied for that id |
| Seeder.ProducePartition | cmd/seed/main.go:84-86 | the batches handed out so far cover an initial range of ids exactly once, in order |
| Seeder.StepPlaced | cmd/seed/main.go:60-86 | each batch handed out is in exactly one of queue, worker, succeeded and failed |
| Seeder.StepConserved | cmd/seed/main.go:60-92 | ids handed out = queued + at work + counted as done + lost to failures |
| Seeder.RunKeepsInv | cmd/seed/main.go:47-94 | all of this holds in every state of every schedule |
| Seeder.SeedResult | cmd/seed/main.go:47-94 | for every count, batch size, concurrency and schedule: the batches start at 1, 1 + size, 1 + 2 size, ... and cover 1..count exactly once, an error is reported if and only if a batch failed, success means every username is present, each new row holds its id's nickname and a secret supplied for it, no other name is added and no existing row altered |
| Seeder.SecondRunIsIdle | internal/store/mysqlstore/store.go:152-169 | after a successful seeding, no second one, finished or not and with any settings, changes a row |
| Seeder.SeedEnds | cmd/seed/main.go:60-88 | every schedule finishes after exactly three moves per batch and is never stuck before |

## Left out

- Cluster assumptions: one active reconciler, reads that are never stale when made, nobody else adding or removing the controllers' finalizer, writing ConfigMaps or making objects with the managed labels, and replicas that fit 32 bits.
- Label keys are constructors and resource quantities are opaque strings; parsing of quantities is not modelled.
- The token secret in the ConfigMap is represented by namespace, name and uid, of which it is a digest; the constant ConfigMap entries and ports are dropped because they are the same for every entry.
- Controllers.Reconcile: that a pass over an entry with everything in place makes no write call assumes that the store returns what was written; with API-server defaulting the operator, which overwrites the whole Service spec, writes it on every pass.
- Controllers.ReconcileAll: the controller's namespace filter is not modelled, all namespaces are listed.
- Frames.ReadFrame: timeouts and short reads of the connection appear only as a stream that ends early.
- WorkerPool.StepKeepsInv: runs end at cancellation of the server's context; the code closes the job channel without waiting for handlers.
- WorkerPool.OwnAnswers: a response whose write failed counts as not sent; a frame cut off by a failed write and what a client makes of it are not modelled.
- Sessions.SessionService.RequireUser: the mode without Redis is not modelled; blank means ASCII spaces only.
- Sessions.SessionService.SaveSession: the float rounding inside ttl.Seconds() is taken as cutting off whole seconds.
- Sessions.SessionService.Login: username and password checks come before the modelled part.
- PictureCache.CacheCoherence: assumes fresh file paths, as the nanosecond timestamp makes them, and Redis switched on; base64 decoding, size and MIME checks before the first statement, and the JSON of the cached value are left out.
- Resp.ReplyRoundTrip: bulk lengths below -1, on which the code panics, are not well-formed; array replies are not read by the code.
- HMAC, SHA-256, PBKDF2 and the JSON of the claims are functions; collision freedom of the session key digest and the JSON round trip of issued claims are hypotheses.
- UpdateNickname, configuration loading, HTTP routes, status mapping, the web UI, leader election, informer caches, YAML and scripts: plumbing or settled by reading one branch.
