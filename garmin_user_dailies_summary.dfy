/** `GarminUserDailiesSummary`: one day of wellness metrics for one linked account, keyed
  * by `(userId, garminUserId, calendarDate)`. Counters start at 0, optional metrics at
  * null; the persistence hooks stamp the creation and modification times (epoch seconds). */
module DailiesSummaries {
  import opened Wrappers
  import opened DailiesSummaryIds

  class GarminUserDailiesSummary {
    var id: GarminDailiesSummaryId?
    var summaryId: Option<string>
    var activityType: Option<string>
    // Calorie and activity metrics
    var activeKilocalories: Option<int>
    var bmrKilocalories: Option<int>
    var steps: Option<int>
    var pushes: Option<int>
    // Time metrics, in seconds
    var durationInSeconds: Option<int>
    var activeTimeInSeconds: Option<int>
    var startTimeInSeconds: Option<int>
    var startTimeOffsetInSeconds: Option<int>
    var moderateIntensityDurationInSeconds: Option<int>
    var vigorousIntensityDurationInSeconds: Option<int>
    var floorsClimbed: Option<int>
    // Heart rate
    var minHeartRateInBeatsPerMinute: Option<int>
    var maxHeartRateInBeatsPerMinute: Option<int>
    var averageHeartRateInBeatsPerMinute: Option<int>
    var restingHeartRateInBeatsPerMinute: Option<int>
    var timeOffsetHeartRateSamples: Option<string>
    var source: Option<string>
    // Goals
    var stepsGoal: Option<int>
    var pushesGoal: Option<int>
    var intensityDurationGoalInSeconds: Option<int>
    var floorsClimbedGoal: Option<int>
    // Stress
    var averageStressLevel: Option<int>
    var maxStressLevel: Option<int>
    var stressDurationInSeconds: Option<int>
    var restStressDurationInSeconds: Option<int>
    var activityStressDurationInSeconds: Option<int>
    var lowStressDurationInSeconds: Option<int>
    var mediumStressDurationInSeconds: Option<int>
    var highStressDurationInSeconds: Option<int>
    var stressQualifier: Option<string>
    // Body battery
    var bodyBatteryChargedValue: Option<int>
    var bodyBatteryDrainedValue: Option<int>
    // Metadata
    var createdAt: Option<int>
    var lastModifiedAt: Option<int>

    /** The field initialisers: counters and durations 0, everything else null. */
    predicate HasInitialValues()
      reads this
    {
      && id == null && summaryId == None && activityType == None
      && activeKilocalories == Some(0) && bmrKilocalories == Some(0)
      && steps == Some(0) && pushes == Some(0)
      && durationInSeconds == Some(0) && activeTimeInSeconds == Some(0)
      && startTimeInSeconds == None && startTimeOffsetInSeconds == None
      && moderateIntensityDurationInSeconds == Some(0) && vigorousIntensityDurationInSeconds == Some(0)
      && floorsClimbed == Some(0)
      && minHeartRateInBeatsPerMinute == None && maxHeartRateInBeatsPerMinute == None
      && averageHeartRateInBeatsPerMinute == None && restingHeartRateInBeatsPerMinute == None
      && timeOffsetHeartRateSamples == None && source == None
      && stepsGoal == None && pushesGoal == None
      && intensityDurationGoalInSeconds == None && floorsClimbedGoal == None
      && averageStressLevel == None && maxStressLevel == None
      && stressDurationInSeconds == Some(0) && restStressDurationInSeconds == Some(0)
      && activityStressDurationInSeconds == Some(0) && lowStressDurationInSeconds == Some(0)
      && mediumStressDurationInSeconds == Some(0) && highStressDurationInSeconds == Some(0)
      && stressQualifier == None
      && bodyBatteryChargedValue == None && bodyBatteryDrainedValue == None
      && createdAt == None && lastModifiedAt == None
    }

    /** `new GarminUserDailiesSummary()`. */
    constructor ()
      ensures HasInitialValues()
    {
      id, summaryId, activityType := null, None, None;
      activeKilocalories, bmrKilocalories, steps, pushes := Some(0), Some(0), Some(0), Some(0);
      durationInSeconds, activeTimeInSeconds := Some(0), Some(0);
      startTimeInSeconds, startTimeOffsetInSeconds := None, None;
      moderateIntensityDurationInSeconds, vigorousIntensityDurationInSeconds := Some(0), Some(0);
      floorsClimbed := Some(0);
      minHeartRateInBeatsPerMinute, maxHeartRateInBeatsPerMinute := None, None;
      averageHeartRateInBeatsPerMinute, restingHeartRateInBeatsPerMinute := None, None;
      timeOffsetHeartRateSamples, source := None, None;
      stepsGoal, pushesGoal, intensityDurationGoalInSeconds, floorsClimbedGoal := None, None, None, None;
      averageStressLevel, maxStressLevel := None, None;
      stressDurationInSeconds, restStressDurationInSeconds := Some(0), Some(0);
      activityStressDurationInSeconds, lowStressDurationInSeconds := Some(0), Some(0);
      mediumStressDurationInSeconds, highStressDurationInSeconds := Some(0), Some(0);
      stressQualifier := None;
      bodyBatteryChargedValue, bodyBatteryDrainedValue := None, None;
      createdAt, lastModifiedAt := None, None;
    }

    method SetId(id: GarminDailiesSummaryId?)
      modifies this`id
      ensures this.id == id
    {
      this.id := id;
    }

    method SetSteps(steps: Option<int>)
      modifies this`steps
      ensures this.steps == steps
    {
      this.steps := steps;
    }

    /** `@PrePersist onCreate`: both timestamps become `now`. */
    method OnCreate(now: int)
      modifies this`createdAt, this`lastModifiedAt
      ensures createdAt == Some(now) && lastModifiedAt == Some(now)
    {
      createdAt := Some(now);
      lastModifiedAt := Some(now);
    }

    /** `@PreUpdate onUpdate`: only the modification time moves; `createdAt` is outside
      * the frame and so unchanged. */
    method OnUpdate(now: int)
      modifies this`lastModifiedAt
      ensures lastModifiedAt == Some(now)
    {
      lastModifiedAt := Some(now);
    }
  }

  /** Persisting a fresh record and then updating it later keeps the creation time and
    * moves the modification time. */
  method CreateThenUpdate(created: int, updated: int) returns (s: GarminUserDailiesSummary)
    ensures fresh(s)
    ensures s.createdAt == Some(created) && s.lastModifiedAt == Some(updated)
    ensures s.steps == Some(0) && s.stepsGoal == None
  {
    s := new GarminUserDailiesSummary();
    s.OnCreate(created);
    s.OnUpdate(updated);
  }
}
