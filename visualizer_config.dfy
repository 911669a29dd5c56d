/**
 * raisa.config.VisualizerConfig: the visualiser's settings, with a list of the
 * items changed since listeners were last notified.
 *
 * Each setter is specified by a function on a `ConfigState` value holding every
 * field; the class's methods are proved to update their fields as that function
 * does, and the properties of the settings are lemmas about those functions.
 */
module Config {

  type ListenerId = nat

  /** The constants of the enums the configuration holds; values this file never names are `Other...`. */
  datatype InputOutputTarget = RealtimeSimulator | OtherTarget(name: string)
  datatype LocalizationMode = Slam | OtherMode(name: string)
  datatype ControllerType = BasicController | OtherController(name: string)
  datatype AlgorithmType = RansacLandmarkExtraction | SpikesLandmarkExtraction | OtherAlgorithm(name: string)
  datatype MapAreaElement = Map | RobotTrail | Robot | Particles | UltrasonicScanner | InfraredScanner | OtherElement(name: string)
  datatype MeasurementType = Heading | Speed | Odometer | SampleCounter | DistanceSensorStatus | OtherMeasurement(name: string)
  datatype ControlType = DrawingTool | Movement | OtherControls | AlgorithmSelection | OtherControl(name: string)

  /** raisa.config.VisualizerConfigItemEnum: what a change record names. */
  datatype ConfigItem =
    | ActivatedController
    | InputOutputTargetItem
    | LocalizationModeItem
    | ActivatedAlgorithms
    | DisplayedMeasurements
    | DisplayedControls
    | DisplayedMapAreaElements
    | AllConfigItems

  /** One `visualizerConfigChanged` call, with the change list the listener could read at that moment. */
  datatype Notification = ConfigChanged(listener: ListenerId, changed: seq<ConfigItem>)

  /** Every field of the configuration, plus the listener calls made so far. */
  datatype ConfigState = ConfigState(
    listeners: seq<ListenerId>,
    changedConfigs: seq<ConfigItem>,
    inputOutputTarget: InputOutputTarget,
    localizationMode: LocalizationMode,
    controllerType: ControllerType,
    activatedAlgorithms: set<AlgorithmType>,
    displayedMapAreaElements: set<MapAreaElement>,
    displayMinAgeForParticles: int,
    displayedMeasurements: set<MeasurementType>,
    displayedControls: set<ControlType>,
    simulatorTicksPerSecond: int,
    simulatorServoDegreesPerSecond: int,
    simulatorRealTime: bool,
    useCompass: bool,
    notifications: seq<Notification>)

  /** The configuration the private constructor builds. */
  function Defaults(): ConfigState {
    ConfigState(
      [], [], RealtimeSimulator, Slam, BasicController, {},
      {Map, RobotTrail, Robot, Particles, UltrasonicScanner, InfraredScanner}, 0,
      {Heading, Speed, Odometer, SampleCounter, DistanceSensorStatus},
      {DrawingTool, Movement, OtherControls, AlgorithmSelection},
      10, 360, true, false, [])
  }

  /**
   * The defaults are in SLAM mode with no activated algorithm: the constructor
   * assigns the mode directly instead of going through setLocalizationMode.
   */
  lemma DefaultSlamHasNoAlgorithms()
    ensures Defaults().localizationMode == Slam
    ensures Defaults().activatedAlgorithms == {}
    ensures Defaults().changedConfigs == []
    ensures !IsChangedSpec(Defaults(), [AllConfigItems])
  {
  }

  // ---------------------------------------------------------------------------
  // The setters, as functions of the state
  // ---------------------------------------------------------------------------

  /** setChanged. */
  function MarkChanged(s: ConfigState, item: ConfigItem): (t: ConfigState)
    ensures t.changedConfigs == s.changedConfigs + [item]
    ensures t.(changedConfigs := s.changedConfigs) == s
  {
    s.(changedConfigs := s.changedConfigs + [item])
  }

  /** setControllerType: a different value is stored and recorded; the same value changes nothing. */
  function WithControllerType(s: ConfigState, c: ControllerType): (t: ConfigState)
    ensures t.controllerType == c
    ensures s.controllerType == c ==> t == s
    ensures s.controllerType != c ==> t == MarkChanged(s, ActivatedController).(controllerType := c)
  {
    if s.controllerType != c then MarkChanged(s.(controllerType := c), ActivatedController) else s
  }

  /** setInputOutputTarget: a different value is stored and recorded; the same value changes nothing. */
  function WithInputOutputTarget(s: ConfigState, target: InputOutputTarget): (t: ConfigState)
    ensures t.inputOutputTarget == target
    ensures s.inputOutputTarget == target ==> t == s
    ensures s.inputOutputTarget != target ==> t == MarkChanged(s, InputOutputTargetItem).(inputOutputTarget := target)
  {
    if s.inputOutputTarget != target then MarkChanged(s.(inputOutputTarget := target), InputOutputTargetItem) else s
  }

  /** addActivatedAlgorithm: always records the change, even when the algorithm was already active. */
  function AddAlgorithm(s: ConfigState, a: AlgorithmType): (t: ConfigState)
    ensures a in t.activatedAlgorithms
    ensures forall x :: x != a ==> (x in t.activatedAlgorithms <==> x in s.activatedAlgorithms)
    ensures t == MarkChanged(s, ActivatedAlgorithms).(activatedAlgorithms := t.activatedAlgorithms)
  {
    MarkChanged(s.(activatedAlgorithms := s.activatedAlgorithms + {a}), ActivatedAlgorithms)
  }

  /** removeActivatedAlgorithm: always records the change. */
  function RemoveAlgorithm(s: ConfigState, a: AlgorithmType): (t: ConfigState)
    ensures a !in t.activatedAlgorithms
    ensures forall x :: x != a ==> (x in t.activatedAlgorithms <==> x in s.activatedAlgorithms)
    ensures t == MarkChanged(s, ActivatedAlgorithms).(activatedAlgorithms := t.activatedAlgorithms)
  {
    MarkChanged(s.(activatedAlgorithms := s.activatedAlgorithms - {a}), ActivatedAlgorithms)
  }

  /**
   * setLocalizationMode: a different mode is stored and recorded; switching to SLAM
   * also activates both landmark extractions. The same mode changes nothing.
   */
  function WithLocalizationMode(s: ConfigState, mode: LocalizationMode): (t: ConfigState)
    ensures t.localizationMode == mode
    ensures s.localizationMode == mode ==> t == s
  {
    if s.localizationMode != mode then
      var s1 := s.(localizationMode := mode);
      var s2 := if mode == Slam then AddAlgorithm(AddAlgorithm(s1, RansacLandmarkExtraction), SpikesLandmarkExtraction) else s1;
      MarkChanged(s2, LocalizationModeItem)
    else s
  }

  function AddMeasurement(s: ConfigState, m: MeasurementType): (t: ConfigState)
    ensures m in t.displayedMeasurements
    ensures forall x :: x != m ==> (x in t.displayedMeasurements <==> x in s.displayedMeasurements)
    ensures t == MarkChanged(s, DisplayedMeasurements).(displayedMeasurements := t.displayedMeasurements)
  {
    MarkChanged(s.(displayedMeasurements := s.displayedMeasurements + {m}), DisplayedMeasurements)
  }

  function RemoveMeasurement(s: ConfigState, m: MeasurementType): (t: ConfigState)
    ensures m !in t.displayedMeasurements
    ensures forall x :: x != m ==> (x in t.displayedMeasurements <==> x in s.displayedMeasurements)
    ensures t == MarkChanged(s, DisplayedMeasurements).(displayedMeasurements := t.displayedMeasurements)
  {
    MarkChanged(s.(displayedMeasurements := s.displayedMeasurements - {m}), DisplayedMeasurements)
  }

  function AddControl(s: ConfigState, c: ControlType): (t: ConfigState)
    ensures c in t.displayedControls
    ensures forall x :: x != c ==> (x in t.displayedControls <==> x in s.displayedControls)
    ensures t == MarkChanged(s, DisplayedControls).(displayedControls := t.displayedControls)
  {
    MarkChanged(s.(displayedControls := s.displayedControls + {c}), DisplayedControls)
  }

  function RemoveControl(s: ConfigState, c: ControlType): (t: ConfigState)
    ensures c !in t.displayedControls
    ensures forall x :: x != c ==> (x in t.displayedControls <==> x in s.displayedControls)
    ensures t == MarkChanged(s, DisplayedControls).(displayedControls := t.displayedControls)
  {
    MarkChanged(s.(displayedControls := s.displayedControls - {c}), DisplayedControls)
  }

  function AddMapAreaElement(s: ConfigState, e: MapAreaElement): (t: ConfigState)
    ensures e in t.displayedMapAreaElements
    ensures forall x :: x != e ==> (x in t.displayedMapAreaElements <==> x in s.displayedMapAreaElements)
    ensures t == MarkChanged(s, DisplayedMapAreaElements).(displayedMapAreaElements := t.displayedMapAreaElements)
  {
    MarkChanged(s.(displayedMapAreaElements := s.displayedMapAreaElements + {e}), DisplayedMapAreaElements)
  }

  function RemoveMapAreaElement(s: ConfigState, e: MapAreaElement): (t: ConfigState)
    ensures e !in t.displayedMapAreaElements
    ensures forall x :: x != e ==> (x in t.displayedMapAreaElements <==> x in s.displayedMapAreaElements)
    ensures t == MarkChanged(s, DisplayedMapAreaElements).(displayedMapAreaElements := t.displayedMapAreaElements)
  {
    MarkChanged(s.(displayedMapAreaElements := s.displayedMapAreaElements - {e}), DisplayedMapAreaElements)
  }

  /** isChanged: one of the items, or the wildcard ALL_CONFIG_ITEMS, was recorded. */
  predicate IsChangedSpec(s: ConfigState, items: seq<ConfigItem>) {
    (exists i :: 0 <= i < |items| && items[i] in s.changedConfigs) || AllConfigItems in s.changedConfigs
  }

  /** The calls notifyVisualizerConfigListeners makes, one per listener in registration order. */
  function Notifications(listeners: seq<ListenerId>, changed: seq<ConfigItem>): (r: seq<Notification>)
    ensures |r| == |listeners|
    ensures forall i :: 0 <= i < |listeners| ==> r[i] == ConfigChanged(listeners[i], changed)
  {
    if listeners == [] then [] else [ConfigChanged(listeners[0], changed)] + Notifications(listeners[1..], changed)
  }

  /** notifyVisualizerConfigListeners: every listener sees the pending changes, which are then forgotten. */
  function Notify(s: ConfigState): (t: ConfigState)
    ensures t.changedConfigs == []
    ensures t.notifications == s.notifications + Notifications(s.listeners, s.changedConfigs)
    ensures t.(changedConfigs := s.changedConfigs, notifications := s.notifications) == s
  {
    s.(notifications := s.notifications + Notifications(s.listeners, s.changedConfigs), changedConfigs := [])
  }

  // ---------------------------------------------------------------------------
  // Properties of the setters
  // ---------------------------------------------------------------------------

  /** Setting a value twice is setting it once. */
  lemma SettersAreIdempotent(s: ConfigState, c: ControllerType, target: InputOutputTarget, mode: LocalizationMode)
    ensures WithControllerType(WithControllerType(s, c), c) == WithControllerType(s, c)
    ensures WithInputOutputTarget(WithInputOutputTarget(s, target), target) == WithInputOutputTarget(s, target)
    ensures WithLocalizationMode(WithLocalizationMode(s, mode), mode) == WithLocalizationMode(s, mode)
  {
  }

  /** A setter records its item exactly when the value differs, and the record can then be observed. */
  lemma SetterRecordsChange(s: ConfigState, c: ControllerType, target: InputOutputTarget)
    ensures IsChangedSpec(WithControllerType(s, c), [ActivatedController])
      <==> s.controllerType != c || IsChangedSpec(s, [ActivatedController])
    ensures IsChangedSpec(WithInputOutputTarget(s, target), [InputOutputTargetItem])
      <==> s.inputOutputTarget != target || IsChangedSpec(s, [InputOutputTargetItem])
  {
    var t := WithControllerType(s, c);
    if s.controllerType != c {
      assert ActivatedController in t.changedConfigs by {
        assert t.changedConfigs[|t.changedConfigs| - 1] == ActivatedController;
      }
      assert [ActivatedController][0] in t.changedConfigs;
    }
    var u := WithInputOutputTarget(s, target);
    if s.inputOutputTarget != target {
      assert u.changedConfigs[|u.changedConfigs| - 1] == InputOutputTargetItem;
      assert [InputOutputTargetItem][0] in u.changedConfigs;
    }
  }

  /**
   * Switching to SLAM activates both landmark extractions and records the mode
   * and the algorithm change; no other setting moves.
   */
  lemma SwitchToSlam(s: ConfigState)
    requires s.localizationMode != Slam
    ensures var t := WithLocalizationMode(s, Slam);
      && t.activatedAlgorithms == s.activatedAlgorithms + {RansacLandmarkExtraction, SpikesLandmarkExtraction}
      && t.changedConfigs == s.changedConfigs + [ActivatedAlgorithms, ActivatedAlgorithms, LocalizationModeItem]
      && t == s.(localizationMode := Slam, activatedAlgorithms := t.activatedAlgorithms, changedConfigs := t.changedConfigs)
  {
  }

  /** Switching away from SLAM deactivates nothing: only the mode and its change record move. */
  lemma SwitchAwayFromSlam(s: ConfigState, mode: LocalizationMode)
    requires mode != Slam && s.localizationMode != mode
    ensures WithLocalizationMode(s, mode) == s.(localizationMode := mode, changedConfigs := s.changedConfigs + [LocalizationModeItem])
  {
  }

  /** Adding or removing a displayed item records the change even when the set stays the same. */
  lemma SetEditsAlwaysRecord(s: ConfigState, a: AlgorithmType, m: MeasurementType, c: ControlType, e: MapAreaElement)
    ensures IsChangedSpec(AddAlgorithm(s, a), [ActivatedAlgorithms]) && IsChangedSpec(RemoveAlgorithm(s, a), [ActivatedAlgorithms])
    ensures IsChangedSpec(AddMeasurement(s, m), [DisplayedMeasurements]) && IsChangedSpec(RemoveMeasurement(s, m), [DisplayedMeasurements])
    ensures IsChangedSpec(AddControl(s, c), [DisplayedControls]) && IsChangedSpec(RemoveControl(s, c), [DisplayedControls])
    ensures IsChangedSpec(AddMapAreaElement(s, e), [DisplayedMapAreaElements])
      && IsChangedSpec(RemoveMapAreaElement(s, e), [DisplayedMapAreaElements])
    ensures a in s.activatedAlgorithms ==> AddAlgorithm(s, a).activatedAlgorithms == s.activatedAlgorithms
    ensures m !in s.displayedMeasurements ==> RemoveMeasurement(s, m).displayedMeasurements == s.displayedMeasurements
  {
    MarkedIsChanged(s.(activatedAlgorithms := s.activatedAlgorithms + {a}), ActivatedAlgorithms);
    MarkedIsChanged(s.(activatedAlgorithms := s.activatedAlgorithms - {a}), ActivatedAlgorithms);
    MarkedIsChanged(s.(displayedMeasurements := s.displayedMeasurements + {m}), DisplayedMeasurements);
    MarkedIsChanged(s.(displayedMeasurements := s.displayedMeasurements - {m}), DisplayedMeasurements);
    MarkedIsChanged(s.(displayedControls := s.displayedControls + {c}), DisplayedControls);
    MarkedIsChanged(s.(displayedControls := s.displayedControls - {c}), DisplayedControls);
    MarkedIsChanged(s.(displayedMapAreaElements := s.displayedMapAreaElements + {e}), DisplayedMapAreaElements);
    MarkedIsChanged(s.(displayedMapAreaElements := s.displayedMapAreaElements - {e}), DisplayedMapAreaElements);
  }

  /** A marked item reads as changed, and so does any query once ALL_CONFIG_ITEMS is marked. */
  lemma MarkedIsChanged(s: ConfigState, item: ConfigItem)
    ensures IsChangedSpec(MarkChanged(s, item), [item])
    ensures forall items :: IsChangedSpec(MarkChanged(s, AllConfigItems), items)
  {
    var t := MarkChanged(s, item);
    assert t.changedConfigs[|t.changedConfigs| - 1] == item;
    assert [item][0] in t.changedConfigs;
    assert MarkChanged(s, AllConfigItems).changedConfigs[|s.changedConfigs|] == AllConfigItems;
  }

  /** After notification nothing reads as changed, and each listener saw the pending changes. */
  lemma NotifyClears(s: ConfigState, items: seq<ConfigItem>)
    ensures !IsChangedSpec(Notify(s), items)
    ensures forall i :: 0 <= i < |s.listeners| ==>
      Notify(s).notifications[|s.notifications| + i] == ConfigChanged(s.listeners[i], s.changedConfigs)
  {
  }

  // ---------------------------------------------------------------------------
  // The configuration object
  // ---------------------------------------------------------------------------

  class VisualizerConfig {
    var listeners: seq<ListenerId>
    var changedConfigs: seq<ConfigItem>
    var inputOutputTarget: InputOutputTarget
    var localizationMode: LocalizationMode
    var controllerType: ControllerType
    var activatedAlgorithms: set<AlgorithmType>
    var displayedMapAreaElements: set<MapAreaElement>
    var displayMinAgeForParticles: int
    var displayedMeasurements: set<MeasurementType>
    var displayedControls: set<ControlType>
    var simulatorTicksPerSecond: int
    var simulatorServoDegreesPerSecond: int
    var simulatorRealTime: bool
    var useCompass: bool
    /** The listener calls made so far, oldest first. */
    var notifications: seq<Notification>

    function State(): ConfigState
      reads this
    {
      ConfigState(
        listeners, changedConfigs, inputOutputTarget, localizationMode, controllerType,
        activatedAlgorithms, displayedMapAreaElements, displayMinAgeForParticles,
        displayedMeasurements, displayedControls, simulatorTicksPerSecond,
        simulatorServoDegreesPerSecond, simulatorRealTime, useCompass, notifications)
    }

    /** The private constructor behind getInstance. */
    constructor()
      ensures State() == Defaults()
    {
      listeners := [];
      changedConfigs := [];
      inputOutputTarget := RealtimeSimulator;
      localizationMode := Slam;
      controllerType := BasicController;
      activatedAlgorithms := {};
      displayedMapAreaElements := {Map, RobotTrail, Robot, Particles, UltrasonicScanner, InfraredScanner};
      displayMinAgeForParticles := 0;
      displayedMeasurements := {Heading, Speed, Odometer, SampleCounter, DistanceSensorStatus};
      displayedControls := {DrawingTool, Movement, OtherControls, AlgorithmSelection};
      simulatorTicksPerSecond := 10;
      simulatorServoDegreesPerSecond := 360;
      simulatorRealTime := true;
      useCompass := false;
      notifications := [];
    }

    method SetControllerType(c: ControllerType)
      modifies this
      ensures State() == WithControllerType(old(State()), c)
    {
      if controllerType != c {
        controllerType := c;
        changedConfigs := changedConfigs + [ActivatedController];
      }
    }

    method SetInputOutputTarget(target: InputOutputTarget)
      modifies this
      ensures State() == WithInputOutputTarget(old(State()), target)
    {
      if inputOutputTarget != target {
        inputOutputTarget := target;
        changedConfigs := changedConfigs + [InputOutputTargetItem];
      }
    }

    method SetLocalizationMode(mode: LocalizationMode)
      modifies this
      ensures State() == WithLocalizationMode(old(State()), mode)
    {
      if localizationMode != mode {
        localizationMode := mode;
        if mode == Slam {
          AddActivatedAlgorithm(RansacLandmarkExtraction);
          AddActivatedAlgorithm(SpikesLandmarkExtraction);
        }
        changedConfigs := changedConfigs + [LocalizationModeItem];
      }
    }

    /** isChanged(items...): looks for each item in turn, then for the wildcard. */
    method IsChanged(items: seq<ConfigItem>) returns (r: bool)
      ensures r == IsChangedSpec(State(), items)
    {
      for i := 0 to |items|
        invariant forall j :: 0 <= j < i ==> items[j] !in changedConfigs
      {
        if items[i] in changedConfigs {
          return true;
        }
      }
      return AllConfigItems in changedConfigs;
    }

    method AddVisualizerConfigListener(listener: ListenerId)
      modifies this
      ensures State() == old(State()).(listeners := old(listeners) + [listener])
    {
      listeners := listeners + [listener];
    }

    method SetChanged(item: ConfigItem)
      modifies this
      ensures State() == MarkChanged(old(State()), item)
    {
      changedConfigs := changedConfigs + [item];
    }

    method NotifyVisualizerConfigListeners()
      modifies this
      ensures State() == Notify(old(State()))
    {
      var log := notifications;
      for i := 0 to |listeners|
        invariant log == notifications + Notifications(listeners[..i], changedConfigs)
      {
        assert Notifications(listeners[..i + 1], changedConfigs)
            == Notifications(listeners[..i], changedConfigs) + [ConfigChanged(listeners[i], changedConfigs)];
        log := log + [ConfigChanged(listeners[i], changedConfigs)];
      }
      assert listeners[..|listeners|] == listeners;
      notifications := log;
      changedConfigs := [];
    }

    method SetDisplayMinAgeForParticles(age: int)
      modifies this
      ensures State() == old(State()).(displayMinAgeForParticles := age)
    {
      displayMinAgeForParticles := age;
    }

    method AddDisplayedMeasurement(m: MeasurementType)
      modifies this
      ensures State() == AddMeasurement(old(State()), m)
    {
      displayedMeasurements := displayedMeasurements + {m};
      SetChanged(DisplayedMeasurements);
    }

    method RemoveDisplayedMeasurement(m: MeasurementType)
      modifies this
      ensures State() == RemoveMeasurement(old(State()), m)
    {
      displayedMeasurements := displayedMeasurements - {m};
      SetChanged(DisplayedMeasurements);
    }

    method AddDisplayedControl(c: ControlType)
      modifies this
      ensures State() == AddControl(old(State()), c)
    {
      displayedControls := displayedControls + {c};
      SetChanged(DisplayedControls);
    }

    method RemoveDisplayedControl(c: ControlType)
      modifies this
      ensures State() == RemoveControl(old(State()), c)
    {
      displayedControls := displayedControls - {c};
      SetChanged(DisplayedControls);
    }

    method AddActivatedAlgorithm(a: AlgorithmType)
      modifies this
      ensures State() == AddAlgorithm(old(State()), a)
    {
      activatedAlgorithms := activatedAlgorithms + {a};
      SetChanged(ActivatedAlgorithms);
    }

    method RemoveActivatedAlgorithm(a: AlgorithmType)
      modifies this
      ensures State() == RemoveAlgorithm(old(State()), a)
    {
      activatedAlgorithms := activatedAlgorithms - {a};
      SetChanged(ActivatedAlgorithms);
    }

    method AddDisplayedMapAreaElement(e: MapAreaElement)
      modifies this
      ensures State() == AddMapAreaElement(old(State()), e)
    {
      displayedMapAreaElements := displayedMapAreaElements + {e};
      SetChanged(DisplayedMapAreaElements);
    }

    method RemoveDisplayedMapAreaElement(e: MapAreaElement)
      modifies this
      ensures State() == RemoveMapAreaElement(old(State()), e)
    {
      displayedMapAreaElements := displayedMapAreaElements - {e};
      SetChanged(DisplayedMapAreaElements);
    }

    /** The simulator settings and the compass flag are stored without a change record. */
    method SetSimulatorTicksPerSecond(ticksPerSecond: int)
      modifies this
      ensures State() == old(State()).(simulatorTicksPerSecond := ticksPerSecond)
    {
      simulatorTicksPerSecond := ticksPerSecond;
    }

    method SetSimulatorServoDegreesPerSecond(degreesPerSecond: int)
      modifies this
      ensures State() == old(State()).(simulatorServoDegreesPerSecond := degreesPerSecond)
    {
      simulatorServoDegreesPerSecond := degreesPerSecond;
    }

    method SetSimulatorRealTime(realTime: bool)
      modifies this
      ensures State() == old(State()).(simulatorRealTime := realTime)
    {
      simulatorRealTime := realTime;
    }

    method SetUseCompass(use: bool)
      modifies this
      ensures State() == old(State()).(useCompass := use)
    {
      useCompass := use;
    }
  }
}
