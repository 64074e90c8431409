// Model of cartographer/mapping/internal/collated_trajectory_builder.cc: the
// per-trajectory adapter between a trajectory builder and the shared Collator.

module Mapping {
  import opened Sensor

  /** The sensor kinds a trajectory builder can expect. */
  datatype SensorType = Range | Imu | Odometry | FixedFramePose | Landmark | LocalSlamResult

  /** An expected sensor: its kind and its id. */
  datatype SensorId = SensorId(sensorType: SensorType, id: string)

  /** kSensorDataRatesLoggingPeriodSeconds: the window every rate timer is created with. */
  const SensorDataRatesLoggingPeriodSeconds: nat := 15

  /** A per-sensor rate timer; only the window it was created with is modelled. */
  datatype RateTimer = RateTimer(windowSeconds: nat)

  /** Whether a sensor of this kind takes part in collation under the two options. */
  predicate Collates(sensorType: SensorType, collateLandmarks: bool, collateFixedFrame: bool)
  {
    !(sensorType == Landmark && !collateLandmarks) && !(sensorType == FixedFramePose && !collateFixedFrame)
  }

  /** The sensor ids the constructor hands to the Collator. */
  function CollatedSensorIds(expected: set<SensorId>, collateLandmarks: bool, collateFixedFrame: bool): (ids: set<string>)
  {
    set sensorId | sensorId in expected && Collates(sensorId.sensorType, collateLandmarks, collateFixedFrame) :: sensorId.id
  }

  /** The expected sensors of one kind. */
  function OfType(expected: set<SensorId>, sensorType: SensorType): (sensors: set<SensorId>)
  {
    set sensorId | sensorId in expected && sensorId.sensorType == sensorType
  }

  /** The ids of a set of sensors. */
  function Ids(sensors: set<SensorId>): (ids: set<string>)
  {
    set sensorId | sensorId in sensors :: sensorId.id
  }

  /** `is_collated_sensor_[id]`: a missing entry reads as false (operator[] default-inserts false). */
  predicate IsCollated(flags: map<string, bool>, sensorId: string)
  {
    sensorId in flags && flags[sensorId]
  }

  /** The collated ids are those of the expected sensors, less the landmark sensors when
      landmarks are not collated and less the fixed-frame-pose sensors when fixed-frame poses
      are not collated. */
  lemma CollatedSensorIdsAreFiltered(expected: set<SensorId>, collateLandmarks: bool, collateFixedFrame: bool)
    ensures CollatedSensorIds(expected, collateLandmarks, collateFixedFrame)
            == Ids(expected
                   - (if collateLandmarks then {} else OfType(expected, Landmark))
                   - (if collateFixedFrame then {} else OfType(expected, FixedFramePose)))
  {
    var kept := expected
                - (if collateLandmarks then {} else OfType(expected, Landmark))
                - (if collateFixedFrame then {} else OfType(expected, FixedFramePose));
    forall id | id in Ids(kept)
      ensures id in CollatedSensorIds(expected, collateLandmarks, collateFixedFrame)
    {
      var sensorId :| sensorId in kept && sensorId.id == id;
      assert Collates(sensorId.sensorType, collateLandmarks, collateFixedFrame);
    }
  }

  /** Visiting one more expected sensor adds its id exactly when its kind is collated. */
  lemma CollatedSensorIdsStep(visited: set<SensorId>, sensorId: SensorId, collateLandmarks: bool, collateFixedFrame: bool)
    ensures CollatedSensorIds(visited + {sensorId}, collateLandmarks, collateFixedFrame)
            == CollatedSensorIds(visited, collateLandmarks, collateFixedFrame)
               + (if Collates(sensorId.sensorType, collateLandmarks, collateFixedFrame) then {sensorId.id} else {})
  {
  }

  /** The constructor's loop over the expected sensors: the ids it collects for the Collator
      and the flags it sets in `is_collated_sensor_`. */
  method FilterCollatedSensors(expected: set<SensorId>, collateLandmarks: bool, collateFixedFrame: bool)
    returns (ids: set<string>, flags: map<string, bool>)
    ensures ids == CollatedSensorIds(expected, collateLandmarks, collateFixedFrame)
    ensures flags.Keys == ids
    ensures forall id :: IsCollated(flags, id) <==> id in ids
  {
    ids := {};
    flags := map[];
    ghost var visited: set<SensorId> := {};
    var remaining := expected;
    while remaining != {}
      invariant visited + remaining == expected
      invariant ids == CollatedSensorIds(visited, collateLandmarks, collateFixedFrame)
      invariant flags.Keys == ids
      invariant forall id :: id in flags ==> flags[id]
      decreases remaining
    {
      var sensorId :| sensorId in remaining;
      remaining := remaining - {sensorId};
      CollatedSensorIdsStep(visited, sensorId, collateLandmarks, collateFixedFrame);
      visited := visited + {sensorId};
      if sensorId.sensorType == Landmark && !collateLandmarks {
        continue;
      }
      if sensorId.sensorType == FixedFramePose && !collateFixedFrame {
        continue;
      }
      ids := ids + {sensorId.id};
      flags := flags[sensorId.id := true];
    }
  }

  /** Pausing a collated sensor and then resuming it restores its flag and touches no other. */
  lemma PauseThenResumeFlags(flags: map<string, bool>, sensorId: string)
    requires IsCollated(flags, sensorId)
    ensures !IsCollated(flags[sensorId := false], sensorId)
    ensures flags[sensorId := false][sensorId := true] == flags
  {
  }

  /** A builder's flags and its trajectory's key list in the Collator agree: the list has no
      duplicates, and a sensor is flagged exactly when its key (t, id) is listed. */
  ghost predicate InSync(keys: seq<QueueKey>, t: int, flags: map<string, bool>)
  {
    && NoDuplicates(keys)
    && (forall k :: k in keys ==> k.trajectoryId == t && IsCollated(flags, k.sensorId))
    && (forall id :: IsCollated(flags, id) ==> QueueKey(t, id) in keys)
  }

  /** In sync, the builder's own check decides the Collator's: a flagged sensor has its key
      listed and an unflagged one does not. */
  lemma InSyncChecksAgree(keys: seq<QueueKey>, t: int, flags: map<string, bool>, sensorId: string)
    requires InSync(keys, t, flags)
    ensures IsCollated(flags, sensorId) <==> QueueKey(t, sensorId) in keys
  {
  }

  /** A trajectory new to the Collator starts in sync: the constructor flags exactly the ids
      it hands to the Collator, which lists one key per id. */
  lemma StartsInSync(keys: seq<QueueKey>, t: int, ids: set<string>, flags: map<string, bool>)
    requires Enumerates(keys, t, ids)
    requires forall id :: IsCollated(flags, id) <==> id in ids
    ensures InSync(keys, t, flags)
  {
    EnumeratesFacts(keys, t, ids);
  }

  /** Pausing a flagged sensor (flag cleared, its key erased) keeps the builder in sync. */
  lemma {:induction false} PauseKeepsInSync(keys: seq<QueueKey>, t: int, flags: map<string, bool>, sensorId: string)
    requires InSync(keys, t, flags) && IsCollated(flags, sensorId)
    ensures QueueKey(t, sensorId) in keys
    ensures InSync(RemoveFirst(keys, QueueKey(t, sensorId)), t, flags[sensorId := false])
  {
    var key := QueueKey(t, sensorId);
    var newFlags := flags[sensorId := false];
    RemoveFirstNoDuplicates(keys, key);
    forall k | k in RemoveFirst(keys, key)
      ensures k.trajectoryId == t && IsCollated(newFlags, k.sensorId)
    {
      RemoveFirstMembership(keys, key, k);
    }
    forall id | IsCollated(newFlags, id)
      ensures QueueKey(t, id) in RemoveFirst(keys, key)
    {
      RemoveFirstMembership(keys, key, QueueKey(t, id));
    }
  }

  /** Resuming an unflagged sensor (flag set, its key appended) keeps the builder in sync. */
  lemma {:induction false} ResumeKeepsInSync(keys: seq<QueueKey>, t: int, flags: map<string, bool>, sensorId: string)
    requires InSync(keys, t, flags) && !IsCollated(flags, sensorId)
    ensures QueueKey(t, sensorId) !in keys
    ensures InSync(keys + [QueueKey(t, sensorId)], t, flags[sensorId := true])
  {
    AppendNoDuplicates(keys, QueueKey(t, sensorId));
  }

  class CollatedTrajectoryBuilder {
    const sensorCollator: Collator
    const collateLandmarks: bool
    const collateFixedFrame: bool
    const trajectoryId: int
    /** The callback handed to the Collator: the closure over this builder. */
    const handler: Callback
    var isCollatedSensor: map<string, bool>
    var rateTimers: map<string, RateTimer>
    /** The samples delivered to the wrapped trajectory builder, in order. */
    var delivered: seq<Data>
    /** The keys the constructor had the Collator append, in the order it appended them. */
    ghost var registeredKeys: seq<QueueKey>

    ghost predicate Valid()
      reads this, sensorCollator, sensorCollator.queue
    {
      && sensorCollator.Valid()
      && handler == Callback(trajectoryId)
      && forall id :: id in rateTimers ==> rateTimers[id] == RateTimer(SensorDataRatesLoggingPeriodSeconds)
    }

    /** The builder's flags and the Collator's key list for its trajectory agree. */
    ghost predicate Synced()
      reads this, sensorCollator
    {
      InSync(sensorCollator.KeysOf(trajectoryId), trajectoryId, isCollatedSensor)
    }

    constructor (collateLandmarks: bool, collateFixedFrame: bool, sensorCollator: Collator,
                 trajectoryId: int, expectedSensorIds: set<SensorId>)
      requires sensorCollator.Valid()
      modifies sensorCollator, sensorCollator.queue
      ensures Valid()
      ensures this.sensorCollator == sensorCollator && this.trajectoryId == trajectoryId
      ensures this.collateLandmarks == collateLandmarks && this.collateFixedFrame == collateFixedFrame
      ensures isCollatedSensor.Keys == CollatedSensorIds(expectedSensorIds, collateLandmarks, collateFixedFrame)
      ensures forall id :: IsCollated(isCollatedSensor, id) <==> id in CollatedSensorIds(expectedSensorIds, collateLandmarks, collateFixedFrame)
      ensures rateTimers == map[] && delivered == []
      ensures sensorCollator.KeysOf(trajectoryId) == old(sensorCollator.KeysOf(trajectoryId)) + registeredKeys
      ensures Enumerates(registeredKeys, trajectoryId, CollatedSensorIds(expectedSensorIds, collateLandmarks, collateFixedFrame))
      ensures sensorCollator.queue.status == Registered(old(sensorCollator.queue.status), registeredKeys, Callback(trajectoryId))
      ensures sensorCollator.queue.calls == old(sensorCollator.queue.calls) + AddQueueCalls(registeredKeys, Callback(trajectoryId))
      ensures forall t :: t != trajectoryId ==> sensorCollator.KeysOf(t) == old(sensorCollator.KeysOf(t))
      ensures old(sensorCollator.KeysOf(trajectoryId)) == [] ==> Synced()
    {
      this.sensorCollator := sensorCollator;
      this.collateLandmarks := collateLandmarks;
      this.collateFixedFrame := collateFixedFrame;
      this.trajectoryId := trajectoryId;
      handler := Callback(trajectoryId);
      var expectedSensorIdStrings, flags := FilterCollatedSensors(expectedSensorIds, collateLandmarks, collateFixedFrame);
      isCollatedSensor := flags;
      rateTimers := map[];
      delivered := [];
      registeredKeys := [];
      new;
      ghost var before := sensorCollator.KeysOf(trajectoryId);
      registeredKeys := sensorCollator.AddTrajectory(trajectoryId, expectedSensorIdStrings, handler);
      if before == [] {
        assert sensorCollator.KeysOf(trajectoryId) == registeredKeys;
        StartsInSync(registeredKeys, trajectoryId, expectedSensorIdStrings, isCollatedSensor);
      }
    }

    /** Hands a sample to the Collator under this builder's trajectory, without filtering. */
    method AddData(data: Data)
      requires Valid()
      modifies sensorCollator.queue
      ensures Valid()
      ensures sensorCollator.queue.status == old(sensorCollator.queue.status)
      ensures sensorCollator.queue.calls == old(sensorCollator.queue.calls) + [AddCall(QueueKey(trajectoryId, data.sensorId), data)]
    {
      sensorCollator.AddSensorData(trajectoryId, data);
    }

    /** What the Collator's callback runs for a released sample: make sure the sensor has a rate
        timer, then deliver the sample to the wrapped builder. */
    method HandleCollatedSensorData(sensorId: string, data: Data)
      requires Valid()
      modifies this
      ensures Valid()
      ensures rateTimers.Keys == old(rateTimers.Keys) + {sensorId}
      ensures forall id :: id in old(rateTimers) ==> rateTimers[id] == old(rateTimers)[id]
      ensures delivered == old(delivered) + [data]
      ensures isCollatedSensor == old(isCollatedSensor)
      ensures registeredKeys == old(registeredKeys)
    {
      if sensorId !in rateTimers {
        rateTimers := rateTimers[sensorId := RateTimer(SensorDataRatesLoggingPeriodSeconds)];
      }
      delivered := delivered + [data];
    }

    /** Stops collating a sensor: its flag goes false and the Collator finishes its queue and drops its key. */
    method PauseCollating(sensorId: string)
      requires Valid()
      requires IsCollated(isCollatedSensor, sensorId)
      requires QueueKey(trajectoryId, sensorId) in sensorCollator.KeysOf(trajectoryId)
      modifies this, sensorCollator, sensorCollator.queue
      ensures Valid()
      ensures isCollatedSensor == old(isCollatedSensor)[sensorId := false]
      ensures registeredKeys == old(registeredKeys)
      ensures rateTimers == old(rateTimers) && delivered == old(delivered)
      ensures sensorCollator.queueKeys == old(sensorCollator.queueKeys)[trajectoryId :=
                RemoveFirst(old(sensorCollator.KeysOf(trajectoryId)), QueueKey(trajectoryId, sensorId))]
      ensures sensorCollator.queue.calls == old(sensorCollator.queue.calls) + [MarkFinishedCall(QueueKey(trajectoryId, sensorId))]
      ensures sensorCollator.queue.status == MarkedFinished(old(sensorCollator.queue.status), [QueueKey(trajectoryId, sensorId)])
      ensures QueueKey(trajectoryId, sensorId) in sensorCollator.queue.status
      ensures sensorCollator.queue.status[QueueKey(trajectoryId, sensorId)].Finished?
      ensures old(Synced()) ==> Synced()
    {
      isCollatedSensor := isCollatedSensor[sensorId := false];
      sensorCollator.PauseCollating(trajectoryId, sensorId);
      if old(Synced()) {
        PauseKeepsInSync(old(sensorCollator.KeysOf(trajectoryId)), trajectoryId, old(isCollatedSensor), sensorId);
      }
    }

    /** Starts collating a sensor again: its flag goes true and the Collator registers a fresh
        queue with the same callback and appends the key. */
    method ResumeCollating(sensorId: string)
      requires Valid()
      requires !IsCollated(isCollatedSensor, sensorId)
      requires QueueKey(trajectoryId, sensorId) !in sensorCollator.KeysOf(trajectoryId)
      modifies this, sensorCollator, sensorCollator.queue
      ensures Valid()
      ensures isCollatedSensor == old(isCollatedSensor)[sensorId := true]
      ensures registeredKeys == old(registeredKeys)
      ensures rateTimers == old(rateTimers) && delivered == old(delivered)
      ensures sensorCollator.queueKeys == old(sensorCollator.queueKeys)[trajectoryId :=
                old(sensorCollator.KeysOf(trajectoryId)) + [QueueKey(trajectoryId, sensorId)]]
      ensures sensorCollator.queue.status == old(sensorCollator.queue.status)[QueueKey(trajectoryId, sensorId) :=
                Active(Forward(Callback(trajectoryId), sensorId))]
      ensures sensorCollator.queue.calls == old(sensorCollator.queue.calls)
                + [AddQueueCall(QueueKey(trajectoryId, sensorId), Forward(Callback(trajectoryId), sensorId))]
      ensures old(Synced()) ==> Synced()
    {
      isCollatedSensor := isCollatedSensor[sensorId := true];
      sensorCollator.ResumeCollating(trajectoryId, sensorId, handler);
      if old(Synced()) {
        ResumeKeepsInSync(old(sensorCollator.KeysOf(trajectoryId)), trajectoryId, old(isCollatedSensor), sensorId);
      }
    }
  }

  /** A client of the builder: pausing and then resuming a collated sensor restores every flag,
      keeps the trajectory's keys (the sensor's now last) and stays in sync with the Collator. */
  method PauseThenResumeSensor(builder: CollatedTrajectoryBuilder, sensorId: string)
    requires builder.Valid() && builder.Synced()
    requires IsCollated(builder.isCollatedSensor, sensorId)
    modifies builder, builder.sensorCollator, builder.sensorCollator.queue
    ensures builder.Valid() && builder.Synced()
    ensures builder.isCollatedSensor == old(builder.isCollatedSensor)
    ensures multiset(builder.sensorCollator.KeysOf(builder.trajectoryId))
            == multiset(old(builder.sensorCollator.KeysOf(builder.trajectoryId)))
    ensures var keys := builder.sensorCollator.KeysOf(builder.trajectoryId);
            keys[|keys| - 1] == QueueKey(builder.trajectoryId, sensorId)
    ensures forall t :: t != builder.trajectoryId ==> builder.sensorCollator.KeysOf(t) == old(builder.sensorCollator.KeysOf(t))
    ensures builder.sensorCollator.queue.status == old(builder.sensorCollator.queue.status)[QueueKey(builder.trajectoryId, sensorId)
              := Active(Forward(Callback(builder.trajectoryId), sensorId))]
    ensures builder.rateTimers == old(builder.rateTimers) && builder.delivered == old(builder.delivered)
  {
    ghost var keys := builder.sensorCollator.KeysOf(builder.trajectoryId);
    InSyncChecksAgree(keys, builder.trajectoryId, builder.isCollatedSensor, sensorId);
    SingleOccurrence(keys, QueueKey(builder.trajectoryId, sensorId));
    PauseThenResume(keys, QueueKey(builder.trajectoryId, sensorId));
    PauseThenResumeFlags(builder.isCollatedSensor, sensorId);
    builder.PauseCollating(sensorId);
    builder.ResumeCollating(sensorId);
    FinishThenRegister(old(builder.sensorCollator.queue.status), QueueKey(builder.trajectoryId, sensorId),
                       Active(Forward(Callback(builder.trajectoryId), sensorId)));
  }
}
