# A verified model of the WebCFace client and server

WebCFace connects programs through a server: each client publishes values, views, logs and functions,
and any other client may subscribe to them or call them. This project models three parts of it in Dafny
and proves what they promise, over every input and every run.

* **The sync, subscription and call protocol.** The client's store of writes and requests
  (`SyncStore`), the way of a reply back to the field that asked (`ReplyRouting`), the thread that owns the
  connection (`Subscriptions`), view replication from a sender
  over the server to any number of subscribers, new-style and old-style (`Views`, `ViewSync`), bounded log
  replication (`LogSync`), promises and their callbacks (`Promises`), remote calls from the caller over the
  server to the targets and back (`Calls`, `CallsSafety`, `CallsOrder`, `CallsOutcome`) and the server's member
  ids (`Members`).
* **Rotation arithmetic**, over exact reals: Euler angles in the twelve axis sequences, matrices and
  quaternions, with the conversions in every direction (`Matrix`, `Euler`, `EulerLaws`, `EulerError`,
  `Quaternion`), rigid transforms (`Transforms`) and the `Rotation` object with its two lazily filled
  representations (`Rotations`).
* **Two fast forms of simple things**: the early-exit scan of a sorted key set (`Names`, `FieldScan`) and
  the fixed-buffer line splitter behind the log stream (`LoggerBuf`).

What the source does by changing objects is a class whose methods are proved against a function or relation
on values; what several threads or machines do together is a step relation over explicit channels, and the
theorems are about all of its runs. `dafny verify dfyconfig.toml` checks everything.

## Hypotheses

* The C math library is the datatype `Euler.MathLib`; its `Valid` says that sine and cosine lie on the unit
  circle, that `sqrt` is the root, that `atan2` satisfies its defining equations, and what sine and cosine
  are at 0, -pi, pi/2 and -pi/2. Numbers are exact reals.
* Channels keep their order and lose nothing while a connection lasts. Replication is claimed within one
  connection of the sender, whose stream starts with the full snapshot, and one of the subscriber; a request
  may reach the server more than once. A call's caller stays connected; its target may close and come back,
  also before the server has noticed. How many log lines are kept, `Log::keepLines`, is not changed during a
  run.
* Values are compared by plain equality and never change once stored. Field names are already normalised.
* Each connection sends one `sync_init`, and the server sees fewer than 2^32 connects.

## Where the code and its promises differ

* `Rotation` says that its two representations, when both are present, are the same rotation. For an object
  that holds only a matrix this fails as soon as its ZYX angles are read exactly when the matrix is no rotation
  matrix, or is caught by the tolerance of the singular branch without being exactly singular
  (`Rotations.CoherentInEveryRun`). Every sequence has rotation matrices of the second kind
  (`EulerError.SomeRotationIsLost`, `Rotations.ReadBreaksRule`); for a rotation matrix the difference is never
  more than 3e-8 in any entry (`Rotations.NearInEveryRun`).
* When the send of the first message of a connection fails, `sync_first` has already been moved from and is
  not emptied, so the next connection starts with an empty list of requests. Over every run, nothing is lost
  if and only if each such failure met only requests that were also queued or about to be
  (`Subscriptions.LostOnlyByFailures`). What is lost stays so until the next disconnect is noticed or it is
  unsubscribed and asked again (`Subscriptions.LostUntilReset`, `Subscriptions.ResetRecoversAll`,
  `Subscriptions.AskingAnewRecovers`).
* A request asked for once can be sent twice: adding it and queueing it are two steps, and a first message
  packed between them has it too (`Subscriptions.OneRequestSentTwice`). Views are not harmed by a second
  answer (`ViewSync.Replicated`). A log's subscriber appends it, and keeps the last lines it should have
  exactly while no request arrives again at a server that has something of the log but fewer lines than the
  subscriber keeps (`LogSync.LogReplicated`, `LogSync.RepeatedRequestFalls`).
* A subscriber that is set to keep more log lines than the server need not end up with the last lines it could
  keep; it has them in every run without such a request exactly when it keeps no more than the server does
  (`LogSync.LogReplicated`, `LogSync.KeepingMoreFalls`).
* The server is never told that a field is unsubscribed, the next id is one more than the largest in use, and
  unsubscribing a field that was not subscribed leaves an entry with id 0, which the first message sends like
  any other. So a reply can be stored under another field than the one it was asked for. Over every run no
  reply is due that would be, exactly when no step does one of three things
  (`ReplyRouting.RoutedWhileHarmless`): a field gets an id that the server still holds for another one or has
  sent a reply with; another zero entry comes first while an answer with id 0 is on its way; a request
  arrives after its id was given to another field, or with id 0 while another zero entry comes first. Both
  kinds of failure happen (`ReplyRouting.FreedReplyIsMisrouted`, `ReplyRouting.ZeroReplyIsMisrouted`). An id
  is given again exactly when the largest one ever given has been removed
  (`ReplyRouting.ReissuedWhenLargestIsFree`).
* A reply whose id no request has is stored under the empty field of the empty member. For a client without a
  name that is its own data.
* A target that connects again before the server has noticed that its old connection is gone can have its
  response lost with that and its result passed on over the new one. Then a call ends without an error and
  was never reached (`CallsOrder.OvertakenIsUnfounded`). Over every run this happens exactly when the server
  passes on a successful result before anything else about the call (`CallsOrder.SuccessMeansFound`), and
  never with one connection of each target at a time (`CallsOrder.OverlapIsNeeded`).
* A reply to a request for `a` about a field below it resolves back to that field exactly when the rest of
  the name is neither empty nor led by a separator (`SyncStore.ReplyResolves`).
* The comment on `setSend` says that it also stores the data as received data; the code leaves that to
  `transferSend`, and so does the model.

## Model

| member | source | states |
|---|---|---|
| EulerLaws.EulerMatrixComposes | tests/transform_test.cc:15-28 | For every sequence and all angles, the matrix is the product of the three turns about the sequence's axes, as the tests promise. |
| EulerLaws.EulerMatrixIsRotation | client/src/transform.cc:13-98 | Every Euler matrix, of any sequence and any angles, is orthonormal with determinant one. |
| Euler.RegularRoundTrip | client/src/transform.cc:115-271 | Outside the singular branch, a rotation matrix converted to angles of any sequence and back is the same matrix. |
| Euler.ExactlySingularRoundTrip | client/src/transform.cc:178-189 | An exactly singular rotation matrix takes the singular branch and comes back exactly. |
| Euler.EulerRoundTrip | client/src/transform.cc:13-295 | For every rotation matrix and all twelve sequences: the round trip is exact if and only if the tolerance test does not catch the matrix or it is exactly singular. |
| EulerError.NearSingularErrorBound | client/src/transform.cc:100-109 | Whatever the tolerance test sends down the singular branch comes back with every entry within 3e-8. |
| EulerError.AnyMatrixRoundTrip | client/src/transform.cc:13-295 | For every matrix at all: the round trip is exact if and only if the matrix is a rotation and that condition holds. |
| EulerError.AnglesRoundTrip | client/src/transform.cc:13-271 | From any angles of any sequence to a matrix, back to angles and to a matrix again: within 3e-8 always, and exact under the same condition. |
| EulerError.SomeRotationIsLost | client/src/transform.cc:100-109 | Every sequence has a rotation matrix that is caught without being exactly singular and does not come back. |
| EulerError.CaughtByAngles | client/src/transform.cc:100-109 | For every matrix built from angles, the tolerance test asks whether the sine of a proper middle angle, or the cosine of a Tait-Bryan one, is within the tolerance in both parts when turned by the first angle, or by the last. |
| Quaternion.MatrixIsConjugation | client/src/transform.cc:297-310 | The matrix of a unit quaternion turns every vector as conjugation by the quaternion does. |
| Quaternion.QuaternionMatrixIsRotation | client/src/transform.cc:297-310 | It is orthonormal with determinant one. |
| Quaternion.Radicand | client/src/transform.cc:312-342 | The branch tests leave a positive number under the root for every matrix at all, rotation or not. |
| Quaternion.Divisor | client/src/transform.cc:312-342 | The divisor of the chosen branch is positive, and its square is four times that number. |
| Quaternion.QuaternionRoundTrip | client/src/transform.cc:297-342 | A unit quaternion comes back as itself or its negation, whichever has a positive component at the chosen branch. |
| Quaternion.RotationIsRankOne | client/src/transform.cc:312-342 | For every rotation matrix, what the branches divide are the pairwise products of one quaternion's components. |
| Quaternion.MatrixRoundTrip | client/src/transform.cc:297-342 | Every rotation matrix gives a unit quaternion whose matrix is the original. |
| Quaternion.SameMatrixUpToSign | client/src/transform.cc:297-310 | Two unit quaternions have the same matrix if and only if they are equal or opposite. |
| Quaternion.ConversionIsComplete | client/src/transform.cc:312-342 | A unit quaternion stands for a rotation matrix if and only if it is what the conversion returns or its negation. |
| Quaternion.PivotSays | client/src/transform.cc:312-342 | For a unit quaternion's matrix the branch goes by the real part exactly when its square is over a quarter, and otherwise by a largest imaginary part. |
| Matrix.RotationsCompose | client/src/transform.cc:394-404 | Rotation matrices are closed under composition. |
| Matrix.RotationInverts | client/src/transform.cc:420-428 | They are closed under inversion. |
| Matrix.RotationEqualsCofactors | client/src/transform.cc:420-428 | The transpose of a rotation matrix, which inversed returns, is its inverse on both sides. |
| Transforms.ComposedAppliesInTurn | client/src/transform.cc:431-437 | Applying a composed transform to a point is applying its parts in turn. |
| Transforms.ApplyAssociative | client/src/transform.cc:431-434 | Composition is associative. |
| Transforms.InverseUndoes | client/src/transform.cc:431-453 | A rigid transform and its inverse undo each other, on both sides and on every point. |
| Transforms.InverseOfComposition | client/src/transform.cc:431-453 | The inverse of a composition composes the inverses the other way round. |
| Transforms.RigidIsClosed | client/src/transform.cc:431-453 | Rigid transforms are closed under appliedTo and inversed. |
| Transforms.RigidKeepsShape | client/src/transform.cc:435-437 | They keep distances and handedness. |
| Transforms.EulerTransformIsRigid | client/src/transform.cc:13-98 | Whatever is built from Euler angles is rigid. |
| Rotations.Rotation.constructor | client/include/webcface/transform.h:308-313 | A default Rotation holds both representations, zero angles and the identity. |
| Rotations.Rotation.FromEuler | client/include/webcface/transform.h:519-526 | ZYX angles are kept as they are, those of other sequences as their matrix; the object stands for the matrix of those angles in that sequence. |
| Rotations.Rotation.FromMatrix | client/include/webcface/transform.h:561-564 | A matrix is kept alone. |
| Rotations.Rotation.RotMatrix | client/include/webcface/transform.h:396-402 | Reads the matrix the object stands for, fills it in and changes nothing else. |
| Rotations.Rotation.RotEuler | client/include/webcface/transform.h:379-390 | Reads the angles, fills in the ZYX angles or the matrix and changes nothing else. |
| Rotations.Rotation.SetRot | client/include/webcface/transform.h:358-362 | A write through the indexed accessor leaves the angles, with that one changed, and drops the matrix. |
| Rotations.Rotation.AppliedTo | client/src/transform.cc:394-404 | The result stands for the product of what the two objects stand for, also when they are the same object. |
| Rotations.Rotation.AppliedToPoint | client/src/transform.cc:385-393 | The point is turned by the matrix the object stands for. |
| Rotations.Rotation.Inversed | client/src/transform.cc:420-428 | The result stands for the transpose. |
| Rotations.OperationsStayRotations | client/src/transform.cc:394-428 | Composition and inversion of Rotation objects stay within the rotation matrices. |
| Rotations.ConstructedStates | client/include/webcface/transform.h:519-564 | What the constructors from angles and from a matrix build obeys the class's rule, and from ZYX angles in every later state too. |
| Rotations.FromEulerMeans | client/include/webcface/transform.h:519-526 | For all twelve sequences, what is built from angles stands for the matrix of those angles in that sequence. |
| Rotations.DefaultState | client/include/webcface/transform.h:308-313 | The default object's two representations agree. |
| Rotations.DefaultHoldsRotation | client/include/webcface/transform.h:308-313 | Its matrix is a rotation matrix. |
| Rotations.CoherentInEveryRun | client/include/webcface/transform.h:253-256 | Over all runs of reads and writes, from whatever matrix the object was built, the rule that both representations are the same rotation holds in every state if and only if it holds at the start and the start has angles or a rotation matrix that is not caught or is exactly singular. |
| Rotations.ReadBreaksRule | client/include/webcface/transform.h:379-390 | There is a rotation matrix for which one read of the ZYX angles breaks that rule. |
| Rotations.RunKeepsSound | client/include/webcface/transform.h:253-256 | From such a start reads never change what the object stands for. |
| Rotations.NearInEveryRun | client/include/webcface/transform.h:253-256 | From every rotation matrix, caught or not, the two representations stay within 3e-8 of each other in every run. |
| Rotations.WriteIsReadBack | client/include/webcface/transform.h:358-362 | After a write a reader finds the written angle and the other two as they were. |
| Names.LastName | client/src/field.cc:22-37 | The part after the last separator, unless only separators come before it. |
| Names.Parent | client/src/field.cc:39-47 | The part before that separator. |
| Names.ChildTakenApart | client/src/field.cc:22-58 | For a single component, parent and lastName8 take apart what child put together if and only if the parent is empty or has more than separators. |
| Names.ChildSays | client/src/field.cc:49-58 | An empty parent or an empty child adds neither text nor separator; otherwise one '.' joins the two. |
| FieldScan.AppendEntries | client/src/field.cc:97-133 | On every sorted key set the loop with its early exit collects what filtering all keys by the two prefixes gives: the entries of exactly the keys that go on after the field with '.' or '/'. |
| FieldScan.CollectedFilters | client/src/field.cc:109-125 | Scanning all keys is filtering them by the two prefixes, taking each one's entry and collecting those. |
| FieldScan.HasChildren | client/src/field.cc:61-82 | True exactly when some key goes on after the field with '.' or '/'. |
| FieldScan.NothingLater | client/src/field.cc:72-78 | Once a key is neither under the field nor below the second prefix, no later key is: this rests on '.' before '/'. |
| FieldScan.EntryIsChild | client/src/field.cc:113-121 | Without recursion an entry is the key up to the first separator after the field's own prefix. |
| FieldScan.CollectIsUnion | client/src/field.cc:122-124 | Collecting appends each missing name once and keeps the rest in order. |
| FieldScan.ChildrenOfStores | client/src/field.cc:141-168 | Over any number of stores in turn the list has no repetition and exactly the entries of the keys under the field in any of them, those of earlier stores first. |
| LoggerBuf.BasicLoggerBuf.Sputc | client/include/webcface/internal/logger.h:15-25 | A character joins the stream; no line is emitted, whether or not the buffer overflows. |
| LoggerBuf.BasicLoggerBuf.Overflow | client/src/log.cc:50-59 | Moving the full buffer over loses nothing and keeps the order. |
| LoggerBuf.BasicLoggerBuf.Sync | client/src/log.cc:60-85 | After a flush the emitted lines are those of the whole stream so far, however it was buffered and flushed before, and the rest is retained. |
| LoggerBuf.SplitIsInverse | client/src/log.cc:63-81 | Lines without line ends which, each with its end, and the rest give back the stream. |
| LoggerBuf.SplitIsUnique | client/src/log.cc:63-81 | No other lines and rest do. |
| LoggerBuf.SplitInSteps | client/src/log.cc:60-85 | Splitting a stream in two flushes gives the lines of splitting it at once. |
| LoggerBuf.TrimSays | client/src/log.cc:63-81 | What is dropped from a line is one carriage return at its end, exactly when there is one. |
| SyncStore.SyncDataStore2.SetSend | client/src/data_store2.cc:51-61 | A write is visible at once to readers of the own data. |
| SyncStore.SyncDataStore2.SetRecv | client/src/data_store2.cc:69-81 | Received data replaces what readers saw of that field only. |
| SyncStore.SyncDataStore2.GetRecv | client/src/data_store2.cc:180-207 | The latest unsent write, else the stored value. |
| SyncStore.SyncDataStore2.Merge | client/src/data_store2.cc:284-290 | The loop stores all writes in order and returns exactly the news among them. |
| SyncStore.SyncDataStore2.TransferSend | client/src/data_store2.cc:278-297 | The stored table becomes the writes laid over it, what is returned is that table or exactly its news, and no reader sees a difference. |
| SyncStore.SyncDataStore2.GetSendPrev | client/src/data_store2.cc:298-306 | What the last transfer returned, nothing for the first message of a connection. |
| SyncStore.ChangeIsUnique | client/src/data_store2.cc:278-297 | That description determines what a transfer returns. |
| SyncStore.AlwaysSent | client/src/data_store2.cc:22-33 | Of a type that is sent on every write, a transfer returns exactly the names written. |
| SyncStore.SentWhenChanged | client/src/data_store2.cc:278-290 | Of a type compared by value, exactly the names that some write of the batch gave another value than they had just before. |
| SyncStore.SentIsLatest | client/src/data_store2.cc:278-290 | With the last value written to each. |
| SyncStore.ReplicaFollows | client/src/data_store2.cc:278-297 | Over every session of writes and transfers, laying all returned tables over each other gives the sender's own table, and with the unsent writes everything ever written. |
| SyncStore.OverlayHasLatest | client/src/data_store2.cc:190-206 | Laying writes over a table leaves the last one of each name. |
| SyncStore.SyncDataStore2.MaxReq | client/src/data_store2.cc:128-135 | The search finds the largest id in use. |
| SyncStore.SyncDataStore2.AddReq | client/src/data_store2.cc:117-140 | A new request gets an id that no other has, 0 only when the 32-bit counter wraps; an old one gets 0 and nothing changes; live ids stay distinct. |
| SyncStore.SyncDataStore2.AddReqInfo | client/src/data_store2.cc:141-165 | The same, and a changed parameter also gets a new id. |
| SyncStore.SyncDataStore2.UnsetRecv | client/src/data_store2.cc:212-229 | One field's data and request go, or a zero entry is left when there was no request; all others stay, and live ids stay distinct. |
| SyncStore.SyncDataStore2.GetReq | client/src/data_store2.cc:248-277 | An id, 0 included, finds the first entry that has it in the map's order, and nothing exactly when no entry has it; a live id finds exactly its own member and field. |
| SyncStore.FirstExists | client/src/data_store2.cc:256-258 | Whenever some entry has the id there is a first one. |
| SyncStore.ResolveIsInjective | client/src/data_store2.cc:259-270 | The same reply taken to be about another field is stored under another name. |
| SyncStore.NewIdIsDistinct | client/src/data_store2.cc:127-138 | The next id collides with no live one, for every state of the counter. |
| SyncStore.NextIdSays | client/src/data_store2.cc:127-138 | One more than the largest id, and 0 after the last of 32 bits. |
| ReplyRouting.RepliesGoToLastGiven | client/src/data_store2.cc:248-277 | At every point of every run of subscribing, unsubscribing, connecting, sending and losing connections: a reply that is due belongs to a request that was given its id, and goes to a given field if and only if the id is in use and was given to that field last, or is 0 and the field's is the first zero entry. |
| ReplyRouting.RoutedWhileHarmless | client/src/client_msg_recv.cc:29-37 | Over every run, no reply that the client can still get would go to another field, at any point, if and only if no step gave away an id that the server holds or has answered with, moved the first zero entry under an answer, or brought a request to the server whose id stands for another field. |
| ReplyRouting.StoredRightWhileHarmless | client/src/client_msg_recv.cc:29-37 | Over every such run, all that is stored under a field is a reply to a request for it, but for what is under the empty names. |
| ReplyRouting.MisroutedGetsStored | server-store/src/member_data.cc:376-383 | Whenever such a reply is due, a value and the deliveries alone lead to a state in which it is stored under another field. |
| ReplyRouting.ReissuedWhenLargestIsFree | client/src/data_store2.cc:127-138 | An id is given again if and only if the largest one ever given is no longer in use. |
| ReplyRouting.FreedReplyIsMisrouted | client/src/value.cc:154-160 | A run of subscribing, connecting, unsubscribing and subscribing to another field that ends with the first one's value stored under the other. |
| ReplyRouting.ZeroReplyIsMisrouted | client/src/client_msg_sync.cc:69-75 | A run of unsubscribing two fields that were never subscribed and connecting, in which no id is ever given, that ends with the second one's value stored under the first. |
| ReplyRouting.StepKeepsInv | client/src/data_store2.cc:117-229 | Every step keeps each live id with the field that got it last and the ids given so far without gaps, and no request or reply anywhere has an id other than 0 that was not given to its field. |
| ReplyRouting.PushedIsTold | client/include/webcface/internal/client_internal.h:249-258 | From every connected state a request that is pushed gets to the server, which then holds its id for its field. |
| ReplyRouting.FirstMessageSays | client/src/client_threading.cc:134-157 | The first message of a connection has exactly the requests of the moment when a sync took it, or those of the present once a lost connection was noticed. |
| ReplyRouting.CloseSays | client/src/client_threading.cc:205-245 | A lost connection takes what was on the way, and nothing that was received or is still queued. |
| SyncStore.ReplyResolves | server-store/src/member_data.cc:1034-1049 | A reply resolves back to the stored name if and only if the part below the requested field is neither empty nor led by a separator. |
| SyncStore.FindReqField | server-store/src/member_data.cc:135-149 | A request for exactly the updated field wins over every request below it; otherwise the first one below it. |
| SyncStore.FirstBelowIsLeast | server-store/src/member_data.cc:135-149 | The first one below is the least of the names below. |
| SyncStore.ExactComesFirst | server-store/src/member_data.cc:135-149 | In a sorted request map a name comes before all its extensions. |
| Views.Build | client/src/view.cc:34-50 | The ids in order, and for each id the first component given for it, with that component's own contents; no others. |
| Views.PackView | client/src/client_msg_sync.cc:202-221 | The difference against what was sent last. |
| ViewSync.PackViews | client/src/client_msg_sync.cc:202-227 | One message for each field with something to send, none for the others. |
| Views.ViewTable.OnRecvAtServer | server-store/src/member_data.cc:461-519 | The stored view is the old one with the message merged; the forwarded message is the received one; the positional one is as specified. |
| Views.ViewTable.OnRecvAtClient | client/src/client_msg_recv.cc:147-164 | The subscriber's view is the old one with the message merged. |
| Views.DiffBringsUpToDate | client/src/client_msg_sync.cc:202-227 | Whoever shows what was sent last shows the new view after the difference; without a last one, whoever it is. |
| Views.NothingMeansUnchanged | client/src/client_msg_sync.cc:222-226 | Nothing is sent if and only if the view sent last already shows the new one. |
| Views.OnlyNewsIsSent | client/src/client_msg_sync.cc:207-216 | A component that was there is sent only when it differs. |
| Views.FullReplyCovers | server-store/src/member_data.cc:1125-1145 | The initial reply brings any subscriber to the server's view. |
| Views.MergeKeepsCovers | server-store/src/member_data.cc:492-505 | Forwarding a message keeps subscriber and server in step. |
| Views.PatchFollows | server-store/src/member_data.cc:461-491 | The positional difference patches the old list into the new one. |
| Views.OldDiffSays | server-store/src/member_data.cc:475-491 | The positional difference has exactly the positions whose component came with the message or whose id differs from before, with the new components. |
| Views.PatchesFollow | server-store/src/member_data.cc:461-519 | So does the sequence of them for every sequence of messages. |
| ViewSync.FullOldReplyFills | server-store/src/member_data.cc:1163-1182 | The initial reply fills an old-style subscriber's list, whatever it held. |
| ViewSync.SyncKeepsUp | client/src/client_msg_sync.cc:146-150 | After a sync the server will show the sender's views once it has everything on the way: the previous transfer is absent or what it received last. |
| ViewSync.StepKeepsInv | server-store/src/member_data.cc:444-519 | Every write, sync, receipt, subscription and delivery keeps the invariants of the whole protocol. |
| ViewSync.Replicated | client/src/client_msg_recv.cc:142-172 | At any point of any run, with the channels empty, a subscriber that asked at any time, once or more often, has the sender's synced fields, the same id list and the sender's component for each listed id. |
| ViewSync.LookupsSucceed | client/src/view.cc:145-159 | At every point of every run, drained or not, each listed id has a component. |
| ViewSync.ServerIsComplete | server-store/src/member_data.cc:1163-1189 | The server always has the components it looks up for an old-style reply. |
| ViewSync.OldReceiverFollows | server-store/src/member_data.cc:506-517 | At any point of any run, with the channels empty, an old-style subscriber has the sender's components in the sender's order. |
| ViewSync.OwnIsWritten | client/src/data_store2.cc:278-297 | Over every run, the sender's synced fields with the unsent writes laid over them are everything written so far; after a sync nothing is unsent. |
| ViewSync.RequestedIsSubscribed | server-store/src/member_data.cc:1125-1145 | Over every run, the fields a subscriber of either format has asked for are exactly those it subscribed to. |
| LogSync.LogData.GetDiff | client/include/webcface/internal/data_store2.h:211-216 | What was appended since the last call, so that the concatenation is the whole log. |
| LogSync.LogData.GetAll | client/include/webcface/internal/data_store2.h:217-220 | The whole log. |
| LogSync.LogData.Append | client/src/log.cc:33-42 | A line is added at the end. |
| LogSync.ServerLog.OnRecv | server-store/src/member_data.cc:945-990 | The server keeps the last lines; only the first message is itself cut down before it is forwarded. |
| LogSync.ClientLog.OnRecv | client/src/client_msg_recv.cc:257-272 | The subscriber keeps the last lines of what it had and what came, for every limit. |
| LogSync.LogReplicated | server-store/src/member_data.cc:945-1004 | Over every run with C no more than K, in which any request may arrive again: a subscriber holds the last C lines up to the last delivered message at every point, and everything synced once the channels are empty, as long as no request arrived again when the server had something but fewer than C lines; if and only if, once all sent to it is delivered. |
| LogSync.RightWhileHarmless | client/src/client_msg_recv.cc:257-272 | At every point of every run: no such request has arrived if and only if the subscriber has been right all along and no answer to one is on its way. |
| LogSync.WholeLogAgain | client/src/client_msg_recv.cc:257-272 | Appending the server's whole log once more leaves the last C lines if and only if there was nothing or at least C lines. |
| LogSync.ServerHasLast | server-store/src/member_data.cc:945-990 | At every point of every run the server has the last K lines that reached it, and the rest of what was synced is on its way. |
| LogSync.LogIsAppended | client/src/log.cc:33-42 | Over every run, the log is every line appended, in order, and a sync counts all of it as sent. |
| LogSync.RepeatedRequestFalls | client/src/log.cc:99-107 | For every C but 0 and 1, a run in which a request arrives twice and the subscriber ends with the only line doubled. |
| LogSync.KeepingMoreFalls | server-store/src/member_data.cc:1379-1401 | For every other pair of limits some run leaves the subscriber, with all channels empty, without its last lines. |
| LogSync.StepKeepsInv | client/src/client_msg_recv.cc:244-279 | Every append, sync, receipt, request, repeated or not, and delivery keeps the server at the last K lines and what waits for the subscriber continuing what it got. |
| Promises.PromiseData.Reach | client/src/func_result.cc:40-64 | Reaching twice changes nothing; once sets the flags, ends a call that was not found, and runs the callbacks that are due. |
| Promises.PromiseData.End | client/src/func_result.cc:74-110 | Responding or rejecting ends the promise once, stores the value or the error and leaves the other one, and runs the callback if one is set. |
| Promises.PromiseData.SetOnReach | client/src/func_result.cc:126-137 | A callback set late runs at once, an earlier one that has not run is replaced. |
| Promises.PromiseData.SetOnFinish | client/src/func_result.cc:138-149 | The same for the end. |
| Promises.PromiseData.CallReachEvent | client/src/func_result.cc:150-160 | Runs a due callback and marks it as done. |
| Promises.PromiseData.CallFinishEvent | client/src/func_result.cc:161-171 | The same for the end. |
| Promises.CallbacksRunOnce | client/src/func_result.cc:40-171 | Under every schedule of any number of threads, with the mutex free during callbacks: each kind runs at most once, only one that was asked for, and whenever the mutex is free it has run exactly if the promise is reached or finished and anybody asked. |
| Promises.EndSays | client/src/func_result.cc:74-110 | Field by field: a value goes to the response, an error to the rejection, and nothing else changes but a due callback. |
| Promises.ReachSays | client/src/func_result.cc:40-64 | Field by field: being reached notes whether the function was found, and ends the promise with the not-found error if not. |
| Promises.AskFinishSays | client/src/func_result.cc:138-149 | Of the finish callbacks asked for the latest counts, at once when the promise has ended and otherwise in place of the one before; after one has run, none does. |
| Promises.AskReachSays | client/src/func_result.cc:126-137 | The same for the reach callbacks. |
| Promises.EndIsGiven | client/src/func_result.cc:74-110 | Over every schedule, a promise that has ended shows a value or error that some thread responded or rejected with, or the not-found error. |
| Promises.UnfoundHasEnded | client/src/func_result.cc:40-64 | Over every schedule, a promise reached and not found has ended whenever no thread is in a reach callback. |
| Promises.FinalAtRest | client/src/func_result.cc:40-110 | A promise reached and ended, with nothing under way, shows the same whatever any threads do from then on. |
| Promises.StepKeepsInv | client/src/func_result.cc:40-171 | Every section under the mutex keeps that. |
| Calls.FuncResultStore.AddResult | client/include/webcface/internal/func_internal.h:92-99 | A new id and a fresh promise under it; every promise given out before is as it was. |
| Calls.FuncResultStore.RunRemote | client/src/func.cc:79-89 | The store takes the run model's step for a call, connected or not. |
| Calls.FuncResultStore.OnCallResponse | client/src/client_msg_recv.cc:295-312 | The store, with every promise it ever gave out, takes the run model's step: that promise is reached, and removed when the function was not found; an unknown id or a second response changes nothing. |
| Calls.FuncResultStore.OnCallResult | client/src/client_msg_recv.cc:313-333 | The same for results: that promise is ended and removed; an unknown id or a finished promise changes nothing. |
| Calls.RunCall | client/src/func.cc:37-63 | A called function's result, its value or its error, is sent exactly once if it has ended by the time the callback is set, and otherwise the callback is left waiting. |
| Calls.EndLater | client/src/func.cc:43-63 | Such a waiting callback sends the result with which the function ends. |
| Calls.RunSelf | client/src/func.cc:67-79 | A call of an own function is reached and runs here and holds its value or its error, or has failed at once. |
| Calls.MemberCalls.OnCall | server-store/src/member_data.cc:319-339 | A call is noted and forwarded to a connected target, and refused otherwise, as in the run model. |
| Calls.MemberCalls.OnReply | server-store/src/member_data.cc:340-358 | Replies are noted, found or not, as in the run model. |
| Calls.MemberCalls.OnClose | server-store/src/member_data.cc:35-62 | Closing sends each pending call what it is still owed, and nothing to the others; a second close sends nothing. |
| Calls.FuncResultStore.constructor | client/include/webcface/internal/func_internal.h:82-86 | The store starts empty, and ids are given from zero. |
| CallsSafety.FinishedIsFinal | client/src/client_msg_recv.cc:295-333 | No reply whatever, expected or not, changes a finished promise. |
| CallsSafety.NeverChangesAgain | client/src/client_msg_recv.cc:280-333 | Over every run, with targets that close and come back, also before the server has noticed, and replies left over from earlier connections, once finished a promise is the same in every later state. |
| CallsSafety.OpenIsOwed | server-store/src/member_data.cc:35-62 | Over every such run, with nothing on the way to and from the caller, an open promise has a connection of its target that the server holds and that owes it the response, or the result once it was reached. |
| CallsSafety.DrainedMeansFinished | server-store/src/member_data.cc:35-62 | Over every such run, with the caller's and the newest connections' channels empty, a promise is open if it depends on its target's newest connection and the function is still running, and only if, unless an earlier connection that the server still holds owes the reply; every other call whose target replied, refused, was missing or closed has ended. |
| CallsSafety.StepKeepsInv | server-store/src/member_data.cc:319-358 | Every connect, reconnect, call, forwarding, answer, result, close and delivery, over the newest or an earlier connection, keeps each call waiting, owed by some connection, or ended. |
| CallsSafety.TargetClosesKeepsInv | server-store/src/member_data.cc:35-62 | In particular a close at any moment, with the late abort after a not-found reply, settles every call in progress. |
| CallsSafety.TargetReopensKeepsInv | client/src/client_threading.cc:102-157 | And a target that comes back, whether or not its earlier connection has closed, with calls it had received, functions still running and replies still queued, unsettles none. |
| CallsSafety.OldClosesKeepsInv | server-store/src/member_data.cc:35-62 | Neither does an earlier connection that closes late, with its aborts for calls that have moved on. |
| CallsOrder.SuccessMeansFound | client/src/func_result.cc:40-110 | Over every run in which no successful result is passed on before anything else about its call, a promise finished without an error was reached and its function found; and, once everything sent to the caller is delivered, over no others. |
| CallsOrder.FoundedWhileNoneOvertakes | server-store/src/member_data.cc:350-358 | At every point of every run: no such result was passed on if and only if every success so far was reached and none is on its way that will not be. |
| CallsOrder.OverlapIsNeeded | server-store/src/member_data.cc:180-200 | It takes a target that connects again while the server holds its earlier connection. |
| CallsOrder.OvertakenIsUnfounded | server-store/src/member_data.cc:340-358 | And with one there is a run in which a call ends with a value and was never reached. |
| CallsOutcome.EndedAsMade | client/src/client_msg_recv.cc:313-333 | Over every run: an open promise holds nothing; one that was not found holds that error; any other that has ended holds exactly the value or error with which the function ended at the target that was called, or that of an abort. |
| CallsOutcome.ResultIsKept | client/src/func_result.cc:74-110 | A result ends an open promise with its value in the response or its error in the rejection, leaves the other one, and takes only that promise out of the store. |
| CallsOutcome.ResponseIsKept | client/src/client_msg_recv.cc:295-312 | A response reaches an unreached promise, and ends and removes it exactly when the function was not found. |
| CallsSafety.ConnectedIsUp | server-store/src/member_data.cc:30-34 | Over every run, the server has a target as connected exactly from its last connect until that connection closed. |
| CallsSafety.CallGoesOrIsRefused | server-store/src/member_data.cc:319-339 | A call goes on to its target over an open connection, or is refused to the caller when that is closed or was never there. |
| CallsSafety.ReopenSays | client/src/client_threading.cc:102-157 | Connecting again keeps what runs, what had arrived and every queued reply, over the old connection or for the new one. |
| Subscriptions.NoneIsLost | client/src/client_threading.cc:93-261 | Under every interleaving in which the snapshots get sent, each live request is on its way, in the snapshot to come or delivered, and delivered once the queue is empty. |
| Subscriptions.LostOnlyByFailures | client/src/client_threading.cc:134-157 | Over every interleaving at all, no live request is lost at any point if and only if each failing send of a snapshot met only live requests that were also queued or about to be. |
| Subscriptions.LostUntilReset | client/src/client_threading.cc:134-157 | What is lost stays lost, whatever else happens, until a lost connection is noticed or it is unsubscribed. |
| Subscriptions.ResetRecoversAll | client/src/client_threading.cc:235-245 | Whatever was lost before, once a lost connection is noticed every live request is safe in all that follows while the snapshots get sent, and delivered when settled. |
| Subscriptions.AskingAnewRecovers | client/src/data_store2.cc:212-229 | Unsubscribing and asking again queues a lost request. |
| Subscriptions.FailedFirstLoses | client/src/client_threading.cc:146-157 | A run that ends connected, with all sent and nothing queued, and the request lost. |
| Subscriptions.SentAtMostOnceMore | client/include/webcface/internal/client_internal.h:249-258 | Over every interleaving, the server gets a request in a session at most once more than it was asked for. |
| Subscriptions.OneRequestSentTwice | client/src/log.cc:99-107 | And there is a run in which it was asked for once and gets it twice. |
| Subscriptions.SentInOrder | client/src/client_threading.cc:205-233 | Under every interleaving, from any moment of a session until the connection is found lost, what was sent and what waits is what it was, followed by everything queued since, in order. |
| Subscriptions.QueuedIsSent | client/src/client_threading.cc:205-233 | So whatever is queued while connected has been sent, in the order of queueing, once nothing waits. |
| Subscriptions.QueueIsKept | client/src/client_threading.cc:205-245 | Across lost and reset connections the queue only grows, until the connection thread takes all of it. |
| Subscriptions.Client.MessagePushReq | client/include/webcface/internal/client_internal.h:249-258 | Queued exactly when a snapshot was taken. |
| Subscriptions.Client.Ask | client/src/data_store2.cc:117-140 | A request is added and pushed only when it is new. |
| Subscriptions.Client.Sync | client/src/client_threading.cc:295-311 | Takes the first snapshot, all requests there are, when there is none and no connection, and otherwise appends one message to the queue. |
| Subscriptions.Client.ConnectBranch | client/src/client_threading.cc:102-157 | Connecting takes the steps of the model, with any outcome of the connect and of the send. |
| Subscriptions.Client.ConnectedBranch | client/src/client_threading.cc:158-260 | A turn of the connected loop takes steps of the model, wherever the connection is lost, and has sent the whole queue in order when it is not. |
| Members.ServerStorage.NewClient | server-store/src/store.cc:18-29 | A connect issues the next id. |
| Members.ServerStorage.SyncInit | server-store/src/member_data.cc:180-200 | The id of the member of that name if there is one, else the own one, and the table has it. |
| Members.ServerStorage.InitClientId | server-store/src/store.cc:61-68 | The table entry of that id is replaced. |
| Members.ServerStorage.FindByName | server-store/src/member_data.cc:186-188 | Finds a member of that name if there is one. |
| Members.ServerStorage.RemoveClient | server-store/src/store.cc:30-51 | A close keeps members with a name and forgets those without. |
| Members.IdentityIsStable | server-store/src/store.cc:18-69 | Over every run: each key is its member's own id, distinct names have distinct ids, and a name once known keeps its id for good. |
| Members.IdsAreNotReused | server-store/src/member_data.cc:183-200 | An id that ever belonged to a name never belongs to another. |
| Members.ReconnectGetsSameId | server-store/src/member_data.cc:186-192 | Connecting again under a known name gives the id that name has always had. |
| Members.NewNameGetsFreshId | server-store/src/member_data.cc:23-23 | A new name gets its connection's own id, which no name had at any time before. |
| Members.UnnamedAreForgotten | server-store/src/store.cc:45-49 | Over every run, a member without a name is in the table only while its connection is open. |
| Members.ClientsAreOpen | server-store/src/store.cc:18-51 | Over every run, exactly the open connections have a client, with a name or without. |

## Left out

- Sockets, the web server, message packing, threads that convert images, directory and host lookups, clocks
  and pings: foreign code, replaced by channels that keep their order, or not needed.
- The C interface, the builders of components, colours and string encodings: plumbing.
- Messages from senders of the old view and canvas format: ids are numbered anew in each of them. Receivers of
  the old format are modelled.
- Canvases: their lists repeat the view logic. A message with a null component is not modelled.
- Requests below a field in the server's update path: `findReqField` looks for requests below the updated
  field and the initial reply for fields below the requested one, so only exact requests are followed in
  `ViewSync` and `LogSync`.
- The function type's rule of never sending again, own-data removal by `unsetRecv` before a transfer, `clearRecv`,
  `Log::clear`, member entries and the lists of known fields.
- Conversions between quaternions and an axis with an angle, and the comparisons of points and rotations with
  a tolerance.
- A reference taken from the indexed accessor of a `Rotation` and written through after a later read.
- Several threads calling `sync` at once, whose snapshots can be queued in another order than they were taken,
  and a snapshot taken just before the first message of a connection and queued after it.
- Callbacks that throw, and two threads responding on one handle at the level of whole calls; `Promises` allows
  them for the callbacks.
- A caller that loses its connection, whose open calls nobody answers, and data that crosses connections of
  one sender or subscriber.
- SyncDataStore2.AddReq: the model adds a request in one step, while the snapshot reads the stores one after
  the other; a request added in between waits for the lock on `sync_first` and is then queued.
- ViewSync.Replicated: a subscription is one step at the server; the way of the request to it is a delay that
  every run may contain.
- Moved-from objects: the snapshot that was moved from is taken to be empty, as the library leaves it.
- The caller id counter and line counts are unbounded; request ids and member ids wrap at 32 bits.
