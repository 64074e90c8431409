# Cartographer sensor collation: per-trajectory bookkeeping

This project models, in Dafny, the bookkeeping layer of Cartographer's sensor
collation and proves properties of it.

- `collator.dfy`, module `Sensor`: the `Collator` class. It keeps
  `queue_keys_` (field `queueKeys`), which maps each trajectory id to its list of
  `QueueKey{trajectory_id, sensor_id}` in registration order. It forwards every
  operation to an ordered multi-queue.
- `collated_trajectory_builder.dfy`, module `Mapping`: the
  `CollatedTrajectoryBuilder` class. It is the per-trajectory adapter. Its
  constructor decides which expected sensors are collated. It keeps the
  `is_collated_sensor_` flags (field `isCollatedSensor`) and the `rate_timers_`
  map (field `rateTimers`). It forwards released samples to the wrapped
  trajectory builder (field `delivered`).

The ordered multi-queue's implementation is not part of this model. It is the
class `OrderedMultiQueue`, an abstract record of what the Collator does to it:

- `status` maps each registered `QueueKey` to `Active` or `Finished`, together with
  the closure registered for it;
- `calls` logs every `AddQueue`, `MarkQueueAsFinished`, `Add` and `Flush` call, in order;
- `blocker` is the key that `GetBlocker` reports.

No merge, readiness or tie-break behaviour is assumed, and the queue's own
preconditions are not modelled. The callbacks are opaque tags:

- `Callback(tag)` is the caller's callback. The builder passes `Callback(trajectoryId)`,
  which stands for its `[this]` closure.
- `Forward(callback, sensorId)` is the per-queue lambda that captures the callback and
  the sensor id.

Fatal `CHECK`s become `requires` clauses. A `std::map`/`flat_hash_map`
`operator[]` on a missing key reads as an empty list or as `false`, as in the
source:

- `FinishTrajectory` on an unknown trajectory inserts an empty list.
- `AddTrajectory` with no sensors inserts nothing.
- Resuming a sensor that has never been seen passes the builder's check.

The Collator's invariant (`Collator.Valid`) says that every listed key belongs
to the trajectory it is listed under and names a queue registered in the
multi-queue. Every Collator operation keeps it.

The builder's predicate `Synced()` (the value predicate `InSync`) says that the
builder's flags and the Collator's key list for its trajectory agree, and that
the list has no duplicates. It holds after construction when the trajectory had
no keys before, and pause and resume preserve it. Under `Synced()`, the
builder's own `CHECK` in pause and resume decides the Collator's `CHECK`
(`InSyncChecksAgree`).

## Model

| member | source | states |
|---|---|---|
| `Sensor.IndexOf` | cartographer/sensor/internal/collator.cc:60-62 | the position `std::find` stops at: within bounds; the key is there if it is before the end; no earlier element is the key |
| `Sensor.Find` | cartographer/sensor/internal/collator.cc:60-63 | the search loop returns the first occurrence of the key, and it returns the end position exactly when the key is absent |
| `Sensor.RemoveFirst` | cartographer/sensor/internal/collator.cc:60-64 | `erase(find(..))` shortens the list by one and removes exactly one copy of the key (multiset difference) |
| `Sensor.RemoveFirstMembership` | cartographer/sensor/internal/collator.cc:60-64 | in a list without duplicates, after the erase an element is present exactly when it was present before and is not the erased key |
| `Sensor.RemoveFirstSublist` | cartographer/sensor/internal/collator.cc:60-64 | every element left after the erase was in the list before |
| `Sensor.SingleOccurrence` | cartographer/sensor/internal/collator.cc:60-64 | in a list without duplicates, a listed key occurs exactly once, so one erase removes it entirely |
| `Sensor.RemoveFirstNoDuplicates` | cartographer/sensor/internal/collator.cc:60-64 | erasing keeps a duplicate-free list duplicate-free, and the erased key is gone |
| `Sensor.AppendNoDuplicates` | cartographer/sensor/internal/collator.cc:76-80 | `push_back` of a key that `find` did not find keeps a duplicate-free list duplicate-free |
| `Sensor.PauseThenResume` | cartographer/sensor/internal/collator.cc:55-81 | pause then resume of a key listed exactly once: the resume check passes, the list keeps the same elements (multiset) and ends with that key, and a duplicate-free list stays duplicate-free |
| `Sensor.AddQueueCallsAt` | cartographer/sensor/internal/collator.cc:26-31 | the i-th `AddQueue` call registers the i-th appended key, with the closure over that key's sensor id |
| `Sensor.MarkFinishedCallsAt` | cartographer/sensor/internal/collator.cc:37-39 | the i-th `MarkQueueAsFinished` call is for the i-th listed key |
| `Sensor.MarkedFinishedAt` | cartographer/sensor/internal/collator.cc:36-40 | after finishing a trajectory, a listed registered queue becomes finished with its closure, and every other queue keeps its status |
| `Sensor.RegisteredAt` | cartographer/sensor/internal/collator.cc:26-31 | after the registration loop, each appended key is an active queue with the closure over its own sensor id, and every other queue is as it was |
| `Sensor.AppendOneQueue` | cartographer/sensor/internal/collator.cc:27-31 | one more loop step adds one `AddQueue` call at the end of the log and one registration |
| `Sensor.MarkOneQueue` | cartographer/sensor/internal/collator.cc:37-39 | one more loop step adds one `MarkQueueAsFinished` call at the end of the log and one marking |
| `Sensor.FinishThenRegister` | cartographer/sensor/internal/collator.cc:55-81 | finishing a queue and then registering it afresh leaves every other queue's status as it was |
| `Sensor.EnumeratesStep` | cartographer/sensor/internal/collator.cc:26-33 | appending the key of a sensor not yet visited extends the keys appended so far by that sensor |
| `Sensor.EnumeratesFacts` | cartographer/sensor/internal/collator.cc:26-33 | the keys appended for a sensor set number one per sensor id, have no duplicates and are exactly the keys (t, s) for s in the set |
| `Sensor.ListedUnderMeans` | cartographer/sensor/internal/collator.cc:22-34 | the per-trajectory invariant holds exactly when every listed key belongs to that trajectory and names a registered queue |
| `Sensor.ListedRegisteredStep` | cartographer/sensor/internal/collator.cc:22-34 | replacing a trajectory's list keeps the invariant when no queue is dropped and each new key was listed before or is a registered key of that trajectory |
| `Sensor.ErasedListed` | cartographer/sensor/internal/collator.cc:55-65 | a listed key names a registered queue, and erasing it from its list keeps the invariant |
| `Sensor.Collator.AddSensorQueue` | cartographer/sensor/internal/collator.cc:27-32 | one loop step: the queue is registered with the closure over its sensor id, and the key is appended to its trajectory's list; the invariant is kept |
| `Sensor.Collator.AddSensorQueues` | cartographer/sensor/internal/collator.cc:26-33 | the loop over the expected sensors: one key per sensor appended, in the order visited, with one active queue registered and one `AddQueue` call logged per key; the invariant is kept |
| `Sensor.Collator.AddTrajectory` | cartographer/sensor/internal/collator.cc:22-34 | appends exactly one key (t, s) per expected sensor s, with the earlier keys kept as a prefix; other trajectories are untouched; one active queue is registered per appended key, in the same order; the invariant is kept |
| `Sensor.Collator.MarkQueuesAsFinished` | cartographer/sensor/internal/collator.cc:37-39 | the loop over the listed keys: one `MarkQueueAsFinished` call per key in list order, and exactly those registered queues become finished |
| `Sensor.Collator.FinishTrajectory` | cartographer/sensor/internal/collator.cc:36-40 | every key listed for the trajectory is marked finished, one call per key in list order; no list changes (an unknown trajectory gets an empty entry and nothing is marked) |
| `Sensor.Collator.AddSensorData` | cartographer/sensor/internal/collator.cc:42-47 | exactly one `Add` call, to the queue keyed (trajectory, sample's sensor id); the status map and the key lists are unchanged; the blocker may move |
| `Sensor.Collator.Flush` | cartographer/sensor/internal/collator.cc:49 | exactly one `Flush` call to the queue; the status map and the key lists are unchanged; the blocker may move |
| `Sensor.Collator.GetBlockingTrajectoryId` | cartographer/sensor/internal/collator.cc:51-53 | always an engaged optional, holding the trajectory id of the blocker key |
| `Sensor.Collator.PauseCollating` | cartographer/sensor/internal/collator.cc:55-65 | requires the key to be listed; that queue is marked finished, exactly the first occurrence of the key is erased from the trajectory's list, and other lists are untouched |
| `Sensor.Collator.ResumeCollating` | cartographer/sensor/internal/collator.cc:67-81 | requires the key not to be listed; the queue is registered afresh with the new closure, and the key is appended at the end |
| `Sensor.PauseThenResumeCollating` | cartographer/sensor/internal/collator.cc:55-81 | pause then resume of a key listed exactly once: the same keys, that key last, a duplicate-free list stays duplicate-free, other trajectories' lists untouched, and the status map is the old one with only that queue registered afresh as active |
| `Mapping.CollatedSensorIdsAreFiltered` | cartographer/mapping/internal/collated_trajectory_builder.cc:42-54 | the ids handed to the Collator are those of the expected sensors, less the landmark sensors when landmarks are not collated and less the fixed-frame-pose sensors when fixed-frame poses are not collated |
| `Mapping.CollatedSensorIdsStep` | cartographer/mapping/internal/collated_trajectory_builder.cc:43-53 | visiting one more expected sensor adds its id exactly when its kind is collated |
| `Mapping.FilterCollatedSensors` | cartographer/mapping/internal/collated_trajectory_builder.cc:42-54 | the constructor's loop collects exactly the collated ids, and the flags it sets are true for exactly those ids |
| `Mapping.CollatedTrajectoryBuilder.constructor` | cartographer/mapping/internal/collated_trajectory_builder.cc:31-61 | the flags are true for exactly the collated ids and hold no other entry; the Collator gets one key per collated id appended (the ghost field `registeredKeys` records them in order), each queue is registered with this builder's callback, one `AddQueue` call per appended key is logged in the same order, and other trajectories are untouched; the builder starts in sync when the trajectory was new |
| `Mapping.CollatedTrajectoryBuilder.AddData` | cartographer/mapping/internal/collated_trajectory_builder.cc:63-65 | exactly one `Add` to the queue (this trajectory, sample's sensor id); no filtering and no change to the builder |
| `Mapping.CollatedTrajectoryBuilder.HandleCollatedSensorData` | cartographer/mapping/internal/collated_trajectory_builder.cc:67-88 | the sensor becomes a key of the rate timers, added only if absent with the 15-second window, and no key is removed; the sample is delivered to the wrapped builder exactly once |
| `Mapping.CollatedTrajectoryBuilder.PauseCollating` | cartographer/mapping/internal/collated_trajectory_builder.cc:91-95 | requires the flag to be true (the builder's `CHECK`) and the key to be listed (the Collator's `CHECK`); the flag goes false, the Collator erases the key and finishes its queue, every other queue keeps its status, and sync is preserved |
| `Mapping.CollatedTrajectoryBuilder.ResumeCollating` | cartographer/mapping/internal/collated_trajectory_builder.cc:97-105 | requires the flag to be false or missing (the builder's `CHECK`) and the key not to be listed (the Collator's `CHECK`); the flag goes true, the Collator re-registers the key with the same builder callback and appends it, and sync is preserved |
| `Mapping.PauseThenResumeFlags` | cartographer/mapping/internal/collated_trajectory_builder.cc:91-105 | after a pause the resume check passes, and pause then resume restores the flag map exactly |
| `Mapping.InSyncChecksAgree` | cartographer/mapping/internal/collated_trajectory_builder.cc:91-105 | in sync, the builder's flag for a sensor is true exactly when the Collator lists its key, so the builder's check decides the Collator's |
| `Mapping.StartsInSync` | cartographer/mapping/internal/collated_trajectory_builder.cc:42-60 | the constructor's flags and the keys the Collator appends for a new trajectory start in sync |
| `Mapping.PauseKeepsInSync` | cartographer/mapping/internal/collated_trajectory_builder.cc:91-95 | clearing a flagged sensor's flag and erasing its key keeps the two in sync |
| `Mapping.ResumeKeepsInSync` | cartographer/mapping/internal/collated_trajectory_builder.cc:97-105 | setting an unflagged sensor's flag and appending its key keeps the two in sync |
| `Mapping.PauseThenResumeSensor` | cartographer/mapping/internal/collated_trajectory_builder.cc:91-105 | pause then resume through the builder: every flag is restored, the trajectory keeps the same keys with that sensor's key last, other trajectories' lists are untouched, the status map is the old one with only the sensor's queue registered afresh with the builder's callback, rate timers and delivered samples are unchanged, and the builder stays in sync |

## Left out

- The ordered multi-queue's merge, readiness, tie-break and drop-on-finish behaviour, and its own checks. Its source is not part of this model. Only the calls the Collator makes into it are recorded.
- Delivery through the multi-queue's callbacks. In the source, `Add`, `Flush` and `MarkQueueAsFinished` may call `HandleCollatedSensorData` synchronously. Here that method is a separate operation.
- `Mapping.CollatedTrajectoryBuilder.AddData`, `Mapping.CollatedTrajectoryBuilder.PauseCollating` and `Mapping.CollatedTrajectoryBuilder.ResumeCollating`: their frames and their clauses `rateTimers == old(rateTimers) && delivered == old(delivered)` say that nothing is delivered during the call. That holds only for the abstract multi-queue, which never calls back. In the source, the `Add` and `MarkQueueAsFinished` calls these make can deliver samples inline.
- `Sensor.Collator.GetBlockingTrajectoryId`: the blocker key is opaque state of the multi-queue, so the contract says nothing about which queue blocks.
- `Mapping.CollatedTrajectoryBuilder.HandleCollatedSensorData`: the `RateTimer::Pulse`, the steady-clock check against the 15-second period, `last_logging_time_` and the rate log lines are left out. They are wall-clock and floating-point diagnostics.
- The `LOG(INFO)` lines in pause and resume.
- Calls that come before a failing `CHECK`: `MarkQueueAsFinished` in pause and `AddQueue` in resume. A failing check ends the process, so the model only states the passing case.
- Options parsing. The two collate options are plain constructor inputs.
- `sensor::Data` payloads and their `AddToTrajectoryBuilder` double dispatch. A sample is a value with a sensor id, a time and an opaque payload. Delivery appends it to `delivered`.
- Locking and concurrency around the shared Collator. The model is sequential.
- Iteration order of `absl::flat_hash_set` and `std::set`. `AddTrajectory` picks sensors in an arbitrary order, and its contract holds for every order.
