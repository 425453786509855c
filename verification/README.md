# Verified model of the robot plugins

A Dafny model of the stateful plugins of the robot framework, with proofs about every run of each of
them. `dafny verify dfyconfig.toml` checks the whole project.

Each plugin appears twice. A *specification* module gives its state as one value, its steps as
functions, and its runs as sequences of events; the theorems are about these runs. A *class* has the
plugin's own fields and callbacks and updates them in place, as the source does; each method's
postcondition says that it takes the step of the specification (`Abs() == Spec.Step(old(Abs()), ...)`),
so the theorems are about the class as well. *Histories* tell what a plugin does from its events alone,
without its steps, and are proved to agree with every run. Callbacks are atomic steps of the main thread. The
framework (web clients, timers, thread pool, JSON, device libraries) is an environment that may take any
step its interface allows; what its calls answer is an event parameter or a finite script.

| part | files |
|---|---|
| telephony: audio framing and reconnecting | `TelephonySpec`, `TelephonyProofs`, `TelephonyAudio`, `TelephonyLeftover`, `TelephonyCalls`, `Telephony` |
| ROS bridge client: ids, advertisements, dispatch | `RosIds`, `RosSpec`, `RosHistory`, `RosPlatform`, `StringOrder` |
| Kinect cameras: resampling and the shared sensor | `KinectSampling`, `KinectSensorSpec`, `KinectSensor` |
| robot gateway: log batches and the startup gate | `GatewayLogs`, `GatewayStartup`, `RobotGateway` |
| WEX agent: the request queue | `WexSpec`, `WexHistory`, `WexAgent` |
| example sensor: request chain, record round trip | `RestDoc`, `RequestChain`, `ExampleSensor` |

## What the environment may do

- Telephony: a client that is CLOSED or DISCONNECTED stays so until `Send()` is called on it; a refused
  `Send()` leaves it so; every other change of state is reported, from inside `Send()` or later; reports
  may be repeated. The timer pointer is null, running, or kept after its one shot; resetting it cancels
  the timer. The script of `Send()` outcomes is finite and afterwards `Send()` is accepted.
- ROS: the multimap keeps equal keys in insertion order and `find` gives the first of them; the 32-bit
  counter wraps around. An unsubscription in a run is the intended one; the one in the code changes
  nothing where it is defined at all.
- Kinect: whether a usable sensor is found and whether a stream opens are chosen freely at each start.
- Gateway: records may be logged at any time, also while an upload request is being built; replies come
  in any order, succeed or fail; the configuration timer may ask for the services again.
- WEX: at each `ExecuteRequest` the service may be missing, answer later, or answer inside `Search`.
- Example sensor: polls come at any time, also without any record; responses and state notifications
  come in any order and number; `ResolveVariables` is an arbitrary function of the stored responses and
  the document.

## Where the code does not do what it is meant to do

The model follows the code. For each of these there is a witness and an exact condition.

- `Disconnect` keeps the reconnect timer, so the timer of one session can close the connected client of
  the next: `DisconnectLeavesTimer`, `InheritedTimerClosesLiveLink`, `NewSessionMayForceCloseIff`. A
  pointer kept from an earlier session also makes a first failed attempt repeat without the pause:
  `FirstFailureRetriesIff`.
- An attempt that both reports its loss from inside `Send()` and returns false is repeated without the
  five second pause: `FailuresDefeatThePause`, `SingleSendIff`.
- Hanging up keeps the audio queue, so the next call sends what the earlier one left:
  `LeftoverExample`, `LeftoverAudioIff`.
- `Unsubscribe` tests `==` where `!=` is meant, so it removes nothing, and reads the end iterator for an
  unknown topic: `UnsubscribeDoesNothing`, `UnsubscribeUnknownTopic`, `WrittenMeetsIntentIff`.
  `UnsubscribeCorrected` is the loop with the guard turned round.
- The list of advertised topics survives a reconnect: `ReconnectLosesAdvertise`,
  `AdvertisedOnItsConnectionIff`. Ids repeat once the counter has wrapped around: `IdsCollide`,
  `IdsDistinctIff`.
- A failed `GrabKinect` still counts: `FailedGrabKeepsSensor`, `LastReleaseShutsDownIff`. A second start
  whose stream cannot be opened leaves the capture timer running without a sensor: `RestartLosesSensor`,
  `CaptureLosesSensorIff`. The 32-bit count can wrap around and shut down a sensor in use:
  `WrapShutsDownHeldSensor`, `SharedSensorSafeIff`.
- The gateway's log times are not initialised: `GarbageStartTime`, `BatchTimesIff`. Records logged while
  an upload is being built are lost: `ReentrantRecordIsLost`, `LogConservationIff`.
- An empty parent id leaves the startup gate shut: `EmptyParentExample`, `GateOpensIff`.
- The WEX agent stalls when the service is missing while intents are queued: `StallExample`,
  `MessageStallsIff`, `StallIsForever`.

## Model

| member | source | states |
|---|---|---|
| TelephonyProofs.NoLinkForgotten | nexmo/services/Telephony.cpp:239-361 | in every reachable state, for every interleaving and every re-entrant behaviour of `Send()`, a lost link has a state notification on its way or a reconnect timer that is really running |
| TelephonyProofs.LostLinkRecovers | nexmo/services/Telephony.cpp:239-361 | from every reachable state with a lost link, the awaited timer or notification, at most two of them, and a `Send()` that goes through bring the link back; the trace gains, as its last two acts, an accepted `Send()` on that client and its handshake |
| TelephonyProofs.ConnectIntroduces | nexmo/services/Telephony.cpp:78-105 | `Connect` on a client whose `Send()` goes through leaves the new client alive and newly introduced under the caller's id |
| TelephonySpec.OnReconnect | nexmo/services/Telephony.cpp:318-361 | from any state, the recursion through `Send()` ends, forgets no lost link, and leaves call, audio queue and earlier trace alone |
| TelephonyProofs.ReconnectEnds | nexmo/services/Telephony.cpp:330-353 | on a lost link it ends with the timer running, or the trace has gained an accepted `Send()` and its handshake as its last two acts |
| TelephonyProofs.HandshakePerAcceptedSend | nexmo/services/Telephony.cpp:92-106 | over every run each accepted `Send()` of `Connect` and `OnReconnect` is followed at once by its handshake, and there are as many handshakes as accepted calls |
| TelephonyProofs.CleanSessionNeverForcesClose | nexmo/services/Telephony.cpp:320-358 | in a session begun without a timer, the timer pointer is set only while the link is lost and reported so, and the forced close is never reached |
| TelephonyProofs.ForcedCloseIff | nexmo/services/Telephony.cpp:354-358 | some continuation of a session forces a close exactly when a timer is running while the link is alive |
| TelephonyProofs.NewSessionMayForceCloseIff | nexmo/services/Telephony.cpp:178-189 | a new session can be closed by force exactly when it inherits a running timer and its first `Send()` goes through |
| TelephonyProofs.DisconnectLeavesTimer | nexmo/services/Telephony.cpp:178-189 | a loss followed by `Disconnect` leaves such a timer running |
| TelephonyProofs.InheritedTimerClosesLiveLink | nexmo/services/Telephony.cpp:354-358 | an inherited timer closes a connected client |
| TelephonyProofs.SingleSendIff | nexmo/services/Telephony.cpp:330-341 | a retry is a single `Send()` exactly when that attempt tells its loss at most once, the false return included |
| TelephonyProofs.FailuresDefeatThePause | nexmo/services/Telephony.cpp:335-341 | n attempts that fail inside `Send()` are all made within one timer firing |
| TelephonyProofs.FirstFailureRetriesIff | nexmo/services/Telephony.cpp:78-105 | when the first `Send()` of a session is refused, it is repeated at once exactly when a timer pointer was kept from before; a timer that fires without a session leaves its pointer set |
| TelephonyProofs.ForcedCloseRetriesAtOnce | nexmo/services/Telephony.cpp:354-358 | a client closed by force is sent to again as soon as its loss is told |
| TelephonyProofs.DisconnectCloses | nexmo/services/Telephony.cpp:178-189 | `Disconnect` closes the client it forgets, and no other |
| TelephonyProofs.ConnectedIff | nexmo/services/Telephony.cpp:239-254 | unless a `Send()` connects before it returns, a callback of the current client leaves the service connected exactly when the client is CONNECTED, or was not lost and the service was connected already |
| TelephonyAudio.AudioConservation | nexmo/services/Telephony.cpp:127-223 | over every run, sent payload followed by the queue is the accepted audio, in order |
| TelephonyAudio.TickMeaning | nexmo/services/Telephony.cpp:284-310 | an in-call tick sends exactly `m_nSendBytes` bytes: the next queued bytes, then zeros, and zeros only when the queue is then empty |
| TelephonyAudio.DrainBound | nexmo/services/Telephony.cpp:284-316 | k ticks leave max(0, b - k*n) of b bytes; the first ceil(b/n) frames carry payload and the first floor(b/n) no padding |
| TelephonyAudio.InCallMeansDraining | nexmo/services/Telephony.cpp:127-189 | with a supported audio format, a call in any reachable state has a client and a running send timer, so the drain bound applies to it |
| TelephonyLeftover.AudioBalance | nexmo/services/Telephony.cpp:127-316 | over any stretch of any run, payload sent followed by the final queue is the first queue followed by the audio accepted |
| TelephonyLeftover.QueueWaits | nexmo/services/Telephony.cpp:146-223 | between the end of a call and the next answer the queue does not change |
| TelephonyLeftover.LeftoverAudioIff | nexmo/services/Telephony.cpp:146-316 | a call answered after another one ended sends only audio given to it exactly when the queue was empty at that end, or no payload can be sent at all |
| TelephonyLeftover.LeftoverExample | nexmo/services/Telephony.cpp:146-158 | a run in which the first frame of a call carries a byte of the earlier one |
| TelephonyCalls.CallHistory | nexmo/services/Telephony.cpp:66-316 | over every run, however the link fares: session, client, call, send timer, frame size, identity, and the list of sessions opened and closed, calls answered and hung up, audio taken and frames sent are those of a three-phase account of the calls alone |
| TelephonyCalls.CallEnds | nexmo/services/Telephony.cpp:146-316 | after a hang-up from either side or a disconnect, until the next answer, no audio is taken and no frame is sent, and the next tick ends with the send timer stopped |
| TelephonyCalls.ResultsTold | nexmo/services/Telephony.cpp:66-189 | `Connect`, `Disconnect`, `Answer` and `HangUp` return true exactly when they had an effect |
| TelephonyCalls.FrameLasts | nexmo/services/Telephony.cpp:268-273 | a frame is to a second of audio as 320 samples are to the sample rate |
| Telephony.Telephony.constructor | nexmo/services/Telephony.cpp:32-38 | starts in the initial state of the runs |
| Telephony.Telephony.Connect | nexmo/services/Telephony.cpp:66-109 | refuses when connected or without credentials; otherwise a new client, then the handshake or a round of reconnecting |
| Telephony.Telephony.Disconnect | nexmo/services/Telephony.cpp:178-189 | closes and forgets the client and ends the call; the timer pointer and the queued audio stay |
| Telephony.Telephony.Answer | nexmo/services/Telephony.cpp:127-143 | sends the answer, begins the call and starts the send timer; refuses without a client |
| Telephony.Telephony.StartSendTimer | nexmo/services/Telephony.cpp:265-282 | sets the frame size by 32-bit arithmetic and starts the timer, or does nothing on an unsupported format |
| Telephony.Telephony.HangUp | nexmo/services/Telephony.cpp:146-158 | announces and ends the call; the queued audio stays; refuses without a client |
| Telephony.Telephony.OnHangUpMessage | nexmo/services/Telephony.cpp:220-223 | ends the call without touching the queue |
| Telephony.Telephony.SendAudioIn | nexmo/services/Telephony.cpp:193-197 | appends the chunk's bytes to the stream during a call, ignores it otherwise |
| Telephony.Telephony.OnSendAudioData | nexmo/services/Telephony.cpp:284-316 | cutting the chunk list into a frame is one step on the byte stream, whatever the chunking; the loop terminates |
| Telephony.Telephony.OnListenState | nexmo/services/Telephony.cpp:239-254 | reads the current client's state and reconnects or marks it connected; ignores other clients |
| Telephony.Telephony.OnReconnect | nexmo/services/Telephony.cpp:318-361 | the methods calling each other through `Send()` terminate and change the object as the function on values, of which the theorems above speak |
| RosIds.IdEndsInNumber | platform/ros/RosPlatform.cpp:116-133 | whatever the topic contains, the text after the last space of an id is the decimal counter |
| RosIds.IdDeterminesNumber | platform/ros/RosPlatform.cpp:116-133 | equal ids carry equal counters, whatever their kinds and topics |
| RosIds.DecimalMeaning | platform/ros/RosPlatform.cpp:116 | the printed counter denotes the counter and has no leading zero |
| RosIds.CStringMeaning | platform/ros/RosPlatform.cpp:116 | a topic is printed up to its first NUL |
| RosHistory.IdsSpelled | platform/ros/RosPlatform.cpp:110-144 | in every run the i-th of the advertise and publish messages carries its own operation, its own topic and number i, wrapped to 32 bits |
| RosHistory.WireHistory | platform/ros/RosPlatform.cpp:71-195 | in every run the wire carries, in order, what each event says: topic, message type or data, subscription id, and the connection of its time; an advertise only with the first mention of a topic |
| RosHistory.PublishesAsAsked | platform/ros/RosPlatform.cpp:110-127 | the topics and data of the published messages are those the callers published, in order |
| RosHistory.ConnectionHistory | platform/ros/RosPlatform.cpp:71-108 | the client is active exactly if the last `Send()` went through and it was not lost since, and each timer that finds it inactive makes one new connection |
| RosHistory.CallHistory | platform/ros/RosPlatform.cpp:197-225 | over every run the handler calls are, for each frame in order, one per handler then subscribed to its topic, with the data of that frame |
| RosSpec.IdsDistinct | platform/ros/RosPlatform.cpp:110-144 | in every run the ids on the wire are `m_IdMap`, in order; the counter is its length wrapped to 32 bits; equal ids are a multiple of 2^32 messages apart, so up to 2^32 messages they are pairwise distinct |
| RosSpec.IdsDistinctIff | platform/ros/RosPlatform.cpp:110-144 | all runs of at most n messages have distinct ids exactly when n <= 2^32 |
| RosSpec.IdsCollide | platform/ros/RosPlatform.cpp:110-144 | a run of 2^32 + 1 messages whose first and last id are equal |
| RosSpec.AdvertiseOncePerTopic | platform/ros/RosPlatform.cpp:110-144 | in every run each publish comes after the one advertise of its topic; advertisements are the topics in order of first mention, with the type of that mention |
| RosSpec.AdvertisedOnItsConnectionIff | platform/ros/RosPlatform.cpp:71-144 | a publish has an earlier advertise on its own connection exactly when no reconnect timer created a client between the first mention of its topic and the publish |
| RosSpec.ReconnectLosesAdvertise | platform/ros/RosPlatform.cpp:71-144 | a run in which a publish on a second connection has no advertise there |
| RosSpec.FrameCallsSubscribers | platform/ros/RosPlatform.cpp:146-225 | after any run of subscriptions and (intended) unsubscriptions, a frame calls just the handlers subscribed to its topic and not removed since, once each, in subscription order; other topics do not matter |
| RosSpec.RemoveFirstForTopic | platform/ros/RosPlatform.cpp:187-188 | the intended removal takes one entry out of its topic's list and leaves the entries of other topics as they are |
| RosPlatform.WrittenMeetsIntentIff | platform/ros/RosPlatform.cpp:171-195 | `Unsubscribe` as written does what is meant exactly when the topic has entries and none is bound to the object |
| RosPlatform.UnsubscribeDoesNothing | platform/ros/RosPlatform.cpp:171-195 | a subscribed object that asks to be removed stays |
| RosPlatform.UnsubscribeUnknownTopic | platform/ros/RosPlatform.cpp:171-195 | for a topic without subscribers it reads the end iterator, where nothing should happen |
| RosPlatform.RosPlatform.ConnectToRobot | platform/ros/RosPlatform.cpp:71-89 | a new client only when inactive; ids, advertisements and subscriptions stay |
| RosPlatform.RosPlatform.Publish | platform/ros/RosPlatform.cpp:110-127 | advertises if needed, then sends under the next counter, as in the runs above |
| RosPlatform.RosPlatform.Advertise | platform/ros/RosPlatform.cpp:129-144 | sends and records a topic the first time and does nothing afterwards |
| RosPlatform.RosPlatform.Subscribe | platform/ros/RosPlatform.cpp:146-169 | inserting into the sorted multimap appends to the list of its topic and to no other |
| RosPlatform.RosPlatform.OnFrame | platform/ros/RosPlatform.cpp:197-225 | the iterator walk over the sorted multimap makes the calls of the plain list |
| RosPlatform.RosPlatform.Unsubscribe | platform/ros/RosPlatform.cpp:171-195 | as written: removes nothing, and reads the end iterator when the topic is unknown |
| RosPlatform.RosPlatform.UnsubscribeCorrected | platform/ros/RosPlatform.cpp:171-195 | with the corrected guard: removes and announces the first entry of the topic bound to the object, if any |
| KinectSampling.InjectiveIff | kinect/KinectCamera.cpp:145 | x -> x*n/w repeats no sensor coordinate exactly when w <= n |
| KinectSampling.OntoIff | kinect/KinectCamera.cpp:145 | it reaches every sensor coordinate exactly when w >= n |
| KinectSampling.ScaleMonotone | kinect/KinectCamera.cpp:145 | it is monotone |
| KinectSampling.DistinctSamplesIff | kinect/KinectCamera.cpp:140-150 | no sensor pixel is used twice exactly when the image fits in 640x480 in both directions |
| KinectSampling.AllSampledIff | kinect/KinectCamera.cpp:140-150 | every sensor pixel is used exactly when the image covers 640x480 in both directions |
| KinectSampling.IdentityAtSensorSize | kinect/KinectCamera.cpp:145-146 | at 640x480 source and destination index are equal |
| KinectSampling.SourceInBounds | kinect/KinectCamera.cpp:145 | every source index lies in the 640x480 frame |
| KinectSampling.EachCellOnce | kinect/KinectCamera.cpp:146 | each destination cell belongs to exactly one (x, y) |
| KinectSampling.SwapMeaning | kinect/KinectCamera.cpp:148 | byte by byte: the first and third byte change places, the second stays, the fourth is cleared |
| KinectSampling.SwapTwice | kinect/KinectCamera.cpp:148 | swapping the channels twice clears the top byte and keeps the rest |
| KinectSampling.SourceMeaning | kinect/KinectCamera.cpp:145 | (x, y) is sampled from the sensor pixel (u, v) with u <= x*640/w < u+1 and v <= y*480/h < v+1, in rows of 640 |
| KinectSampling.ResampleColour | kinect/KinectCamera.cpp:139-150 | the column-major loops fill cell x + y*w with the sample of (x, y), its four bytes swapped as above, without int overflow |
| KinectSampling.ResampleDepth | kinect/KinectDepthCamera.cpp:161-171 | the depth matrix holds the sample of every (x, y), from the same source index as the colour image |
| KinectSensorSpec.SharedSensorSafeIff | kinect/KinectCamera.cpp:61-250 | for any number of cameras: throughout a run the count is holders plus leaked grabs (modulo 2^32), every holder has the shared sensor, every other sensor was shut down, a paused camera holds nothing - exactly when no step gives a grab back at a count of 1 while another camera holds the sensor |
| KinectSensorSpec.SharedSensorSafe | kinect/KinectCamera.cpp:61-250 | so every run of at most 2^32 events is safe |
| KinectSensorSpec.WrapShutsDownHeldSensor | kinect/KinectCamera.cpp:234-250 | a longer run in which the count wraps around and a held sensor is shut down |
| KinectSensorSpec.ShutsDownIff | kinect/KinectCamera.cpp:238-250 | a step shuts the sensor down exactly when it gives a grab back and the grabs outstanding are 1 modulo 2^32 |
| KinectSensorSpec.LastReleaseShutsDownIff | kinect/KinectCamera.cpp:95-250 | the last release, by a stop or by a pause, shuts the sensor down exactly when the leaked grabs are 0 modulo 2^32 |
| KinectSensorSpec.EarlierReleaseKeepsIff | kinect/KinectCamera.cpp:95-250 | an earlier release, by a stop or by a pause, only counts down, exactly when the grabs outstanding are not 1 modulo 2^32 |
| KinectSensorSpec.ResumeRestores | kinect/KinectCamera.cpp:177-193 | a capturing camera paused and resumed captures again with count, holders and leaks as before, if the pause kept the sensor open or a sensor is found again |
| KinectSensorSpec.PausesNest | kinect/KinectCamera.cpp:177-193 | over every run, whatever other events come between: a camera paused more often than resumed holds and captures nothing, and a resume captures again exactly when it makes the two equal |
| KinectSensorSpec.LeakKeepsSensorIff | kinect/KinectCamera.cpp:234-250 | once a grab is leaked, an open sensor stays open throughout a continuation exactly when no step of it gives a grab back at a count of 1 |
| KinectSensorSpec.LeakKeepsSensor | kinect/KinectCamera.cpp:234-250 | which takes more than 2^32 events |
| KinectSensorSpec.FailedGrabKeepsSensor | kinect/KinectCamera.cpp:234 | a run in which a failed grab keeps the sensor open after its last user stopped |
| KinectSensorSpec.CaptureLosesSensorIff | kinect/KinectCamera.cpp:61-93 | a step leaves a capture timer without a sensor exactly when it restarts a capturing camera and the stream fails |
| KinectSensorSpec.RestartLosesSensor | kinect/KinectCamera.cpp:61-93 | a run that leaves a camera capturing without a sensor |
| KinectSensor.SharedSensor.GrabKinect | kinect/KinectCamera.cpp:199-236 | takes the first usable sensor, and no later one, unless one is shared, and counts every call |
| KinectSensor.SharedSensor.FreeKinect | kinect/KinectCamera.cpp:238-250 | counts down for the shared sensor only, and shuts down at zero |
| KinectSensor.KinectCamera.OnStart | kinect/KinectCamera.cpp:61-93 | unless paused, grabs the sensor and keeps it only if its stream opens; touches this camera and the pool only |
| KinectSensor.KinectCamera.OnStop | kinect/KinectCamera.cpp:95-116 | stops capturing and gives back the sensor if held; touches this camera and the pool only |
| KinectSensor.KinectCamera.OnPause | kinect/KinectCamera.cpp:177-184 | the first pause stops the camera; pauses nest |
| KinectSensor.KinectCamera.OnResume | kinect/KinectCamera.cpp:186-193 | only the resume that brings the count to zero starts the camera |
| GatewayLogs.LogConservationIff | rg/services/RobotGateway.cpp:137-171 | uploaded batches followed by the pending list are the records that passed level and filter, in order, exactly when none was logged while an upload was built |
| GatewayLogs.KeptMeaning | rg/services/RobotGateway.cpp:137-176 | over every run the records that count as kept are those logged between start and stop, or while an upload is built, at the level last set or above, and of a configured subsystem unless none is configured |
| GatewayLogs.ReentrantRecordIsLost | rg/services/RobotGateway.cpp:444-464 | a run that loses such a record |
| GatewayLogs.TimerIffPending | rg/services/RobotGateway.cpp:119-171 | until `Stop` pending records always have a running timer; the timer runs exactly when records are pending, unless the last upload lost re-entrant records and none was kept since; a timer running after `Stop` has one of these two reasons |
| GatewayLogs.NoneReentered | rg/services/RobotGateway.cpp:444-464 | that exception needs a record kept while an upload was built |
| GatewayLogs.StopStrandsPending | rg/services/RobotGateway.cpp:119-127 | what `Stop` finds pending is not uploaded until another record passes |
| GatewayLogs.BatchTimesIff | rg/services/RobotGateway.cpp:151-156 | for all integer times: start and end of a batch are the least and greatest time of its records exactly when neither of these is 0, the unset mark, with a later record after it, and, for the first batch, the uninitialised times were harmless |
| GatewayLogs.GarbageStartTime | rg/services/RobotGateway.cpp:19-27 | a run whose first batch has a wrong start time |
| GatewayLogs.MinMaxMeaning | rg/services/RobotGateway.cpp:452-453 | least and greatest time bound the times of a batch and are attained |
| GatewayStartup.GateOpensWithinFourReplies | rg/services/RobotGateway.cpp:101-107 | unless an empty parent id came, a flag not set has a reply coming that can set it, and the fourth such reply opens the gate |
| GatewayStartup.GateOpensIff | rg/services/RobotGateway.cpp:265-442 | once all those replies came the gate is open exactly if no parent id was empty |
| GatewayStartup.EmptyParentShutsForGood | rg/services/RobotGateway.cpp:332-336 | after an empty parent id no later event opens the gate |
| GatewayStartup.EmptyParentExample | rg/services/RobotGateway.cpp:332-336 | a run in which every request succeeds and the gate stays shut |
| GatewayStartup.FlagsMonotone | rg/services/RobotGateway.cpp:307-309 | the two flags are never cleared |
| GatewayStartup.RepliesBalance | rg/services/RobotGateway.cpp:265-442 | over every run: requests of each kind caused by the replies so far are outstanding or answered, one for one, the parent asked for exactly on a non-empty id that counts; and each flag is set exactly if a reply came that sets it |
| RobotGateway.RobotGateway.constructor | rg/services/RobotGateway.cpp:19-27 | sets everything but the two log times |
| RobotGateway.RobotGateway.Process | rg/services/RobotGateway.cpp:137-171 | the filter loop keeps a record exactly if its level passes and the filter is empty or names its subsystem |
| RobotGateway.RobotGateway.OnPersistLogs | rg/services/RobotGateway.cpp:444-464 | copies the batch, then clears it, with re-entrant records in between |
| RobotGateway.RobotGateway.SetLogLevel | rg/services/RobotGateway.cpp:173-176 | changes the level only |
| RobotGateway.RobotGateway.Stop | rg/services/RobotGateway.cpp:119-127 | cancels the timers and keeps what is pending |
| RobotGateway.RobotGateway.Start | rg/services/RobotGateway.cpp:98-107 | the wait loop serves events until both flags are set and not one longer |
| RobotGateway.RobotGateway.RegisterEmbodiment | rg/services/RobotGateway.cpp:190-206 | one registration request is outstanding afterwards |
| RobotGateway.RobotGateway.OnRegisteredEmbodiment | rg/services/RobotGateway.cpp:265-311 | success asks for organization, administrators and services; failure sets both flags |
| RobotGateway.RobotGateway.UpdateConfig | rg/services/RobotGateway.cpp:313-322 | asks for the services and leaves the configuration timer running |
| RobotGateway.RobotGateway.OnOrganization | rg/services/RobotGateway.cpp:324-355 | asks for a non-empty parent, does nothing for an empty one, and sets the parent flag in all other cases |
| RobotGateway.RobotGateway.OnConfigured | rg/services/RobotGateway.cpp:403-442 | sets the configuration flag on success and failure |
| RobotGateway.RobotGateway.OnParent | rg/services/RobotGateway.cpp:357-387 | sets the parent flag on success and failure |
| WexSpec.ServesInOrder | watson/agent/WEXAgent.cpp:60-134 | in every run intents are served in order of arrival, each processed and then completed or failed once before the next starts; an idle agent has an empty queue |
| WexHistory.AnswersDecide | watson/agent/WEXAgent.cpp:60-134 | in every run the trace is, intent by intent in order of arrival: ERROR alone where the service was missing, otherwise PROCESSING and then COMPLETED if its own answer was good and ERROR if not, the answers being used in order |
| WexSpec.NeverStallsWithService | watson/agent/WEXAgent.cpp:60-134 | while the service is found, exactly one search is on its way exactly when an intent is active |
| WexSpec.MessageStallsIff | watson/agent/WEXAgent.cpp:97-132 | an answer stalls the agent exactly when for some queued intent the service is missing and for those before it the search answers at once |
| WexSpec.IntentNeverStalls | watson/agent/WEXAgent.cpp:60-75 | a new intent never stalls it |
| WexSpec.StallIsForever | watson/agent/WEXAgent.cpp:65-73 | a stalled agent queues every later intent and serves none |
| WexSpec.StallExample | watson/agent/WEXAgent.cpp:122-128 | a run that stalls |
| WexAgent.WexAgent.OnWexIntent | watson/agent/WEXAgent.cpp:60-75 | an idle agent executes the intent, a busy one queues it |
| WexAgent.WexAgent.ExecuteRequest | watson/agent/WEXAgent.cpp:77-95 | the recursion with `OnMessage` terminates on the queue; without the service the intent fails and the active one stays |
| WexAgent.WexAgent.OnMessage | watson/agent/WEXAgent.cpp:97-134 | completes or fails the active intent, then executes the next or becomes idle |
| RestDoc.RoundTrip | smartthings/sensors/ExampleSensor.h:55-89 | reading back what was written restores URL, type, params and the whole header map, into any target |
| RestDoc.LastEntryWins | smartthings/sensors/ExampleSensor.h:82-88 | after reading any document a header has the value of its last entry |
| RestDoc.PutSorted | smartthings/sensors/ExampleSensor.h:87 | setting a header keeps the map sorted without duplicates |
| RequestChain.ChainStory | smartthings/sensors/ExampleSensor.cpp:46-130 | a poll of a sensor not paused with n > 0 records: t terminal notifications give one request for each of the records 0..min(t, n-1), in order, each carrying URL, params, type and headers of its record as resolved from exactly the earlier responses; the last response is delivered exactly once, exactly when t >= n. Without records the poll reads past the end; paused, it does nothing |
| RequestChain.RequestsCarryResolved | smartthings/sensors/ExampleSensor.cpp:87-130 | request k carries the members of the document that the resolver returns for record k and the responses to requests 0..k-1, headers by last entry, and the authorization |
| RequestChain.SecondRequestSeesFirstResponse | smartthings/sensors/ExampleSensor.cpp:95-118 | a run in which the second request goes to the URL that the first one answered |
| RequestChain.UnresolvedRequest | smartthings/sensors/ExampleSensor.cpp:95-99 | with nothing to resolve each request uses its record as configured |
| ExampleSensor.RestRecord.Serialize | smartthings/sensors/ExampleSensor.h:55-68 | the loop writes the document of the record |
| ExampleSensor.RestRecord.Deserialize | smartthings/sensors/ExampleSensor.h:71-89 | the loop rebuilds the headers from the document; the token stays |
| ExampleSensor.DeviceRequest.constructor | smartthings/sensors/ExampleSensor.cpp:78-82 | makes the first request, or reads the first record of an empty list |
| ExampleSensor.DeviceRequest.OnState | smartthings/sensors/ExampleSensor.cpp:87-111 | a terminal notification starts the next request or delivers and deletes; others do nothing |
| ExampleSensor.DeviceRequest.OnResponse | smartthings/sensors/ExampleSensor.cpp:113-119 | stores the response under the current index |
| ExampleSensor.DeviceRequest.MakeRequest | smartthings/sensors/ExampleSensor.cpp:121-130 | sets the authorization header and makes the request of the current record |
| ExampleSensor.ExampleSensor.StreamingThread | smartthings/sensors/ExampleSensor.cpp:46-50 | starts a new chain unless paused, also when there are no records |

## Left out

- GatewayLogs.BatchTimesIff: times, the uninitialised ones included, are integers; a double holds those exactly up to 2^53.
- TelephonyAudio.AudioConservation: a frame counts as sent when it is handed to the client; what a client that lost its link does with it is not modelled.
- RequestChain.ChainStory: what happens after reading past the end of an empty list; JSON parsing of a response.
- RestDoc.RoundTrip: headers are ordered by the plain string order; a document whose members are not strings is not modelled.
- Telephony: a `Close()` that reports at once, from inside `Disconnect` or the forced close. Inside `Disconnect` the report finds the connection still set, so `OnReconnect` arms the timer or calls `Send()` before the pointer is cleared; the model reaches that state by another order of events (loss, delivery, `Disconnect`), with the acts of the trace in another order.
- Telephony: the length of the timer intervals.
- Telephony `Dial`, `Text`, the `ack` message and the audio from the other side: they touch none of the state above.
- The framework calling back into a ROS handler that subscribes again, which would wait on its own lock.
- The gateway refuses to start without a bearer token, and adds its sub-services; the heartbeat; applying the fetched credentials.
- Signed counters of pauses are unbounded here; an `int` would overflow after 2^31 of them.
- Real threads, the volatile capture flags and their spin waits.
- HTTP and websocket transport, JSON and XML parsing, image encoding, device libraries: environment only.
- The IVA pipeline, the remote speech gesture, the other sensors, agents, services and platforms: linear wrappers that would add only easy members.
- Loading and saving of scalar settings, logging, credentials.
