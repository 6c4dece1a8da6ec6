/**
 * The shadow field registry: a fixed table of fields, each addressed by a
 * category and a key, with the accessors that read a field's reported value
 * out of an incoming document and merge its desired value into an outgoing one.
 */
module Shadow {
  import opened Wrappers
  import opened Json

  /** The sections of the shadow; `NoCategory` fields sit directly under `reported`/`desired`. */
  datatype Category =
    | Device | ShadowSection | Valve | Adc | Battery | Dsp | Motor | Wifi | Action | Requested | NoCategory
  {
    function Name(): string {
      match this
      case Device => "device"
      case ShadowSection => "shadow"
      case Valve => "valve"
      case Adc => "adc"
      case Battery => "battery"
      case Dsp => "dsp"
      case Motor => "motor"
      case Wifi => "wifi"
      case Action => "action"
      case Requested => "requested"
      case NoCategory => "none"
    }
  }

  datatype ItemType = IntType | StringType | BoolType | DoubleType | EnumType

  /** One row of the registry table. */
  datatype ItemDef = ItemDef(
    category: Category, key: string, kind: ItemType, caption: string,
    val1: Option<string>, val2: Option<string>)

  /** The registry's fields, one constructor per row. */
  datatype Item =
    | DeviceMacAddr | DeviceFwVersion | DeviceProvisioned | DeviceInstalled | DeviceTested
    | ValveType | ValveState
    | BatteryBatteryState | BatterySourceState | BatteryBatteryVoltage | BatteryBusVoltage
    | BatteryBusCurrent | BatteryBatteryCurrent | BatterySysVoltage | BatteryTsTemperature
    | BatteryDieTemperature | BatteryChargeVoltage | BatteryChargeCurrent
    | AdcNumsamples
    | MotorState | MotorDelayT | MotorRunTime | MotorMaxI | MotorMaxT | MotorBackT
    | RequestedValveStateReq | RequestedValveStateCounter
    | WifiSsid | WifiRssi | WifiDisconnectTime | WifiConnectNotFlowing | WifiConnectSleepMultiplier
    | NoneFreeHeap | NoneUpTime | NoneOtaChecked | NoneShadowVer

  /** The field's section. */
  function Cat(i: Item): Category {
    match i
    case DeviceMacAddr => Device
    case DeviceFwVersion => Device
    case DeviceProvisioned => Device
    case DeviceInstalled => Device
    case DeviceTested => Device
    case ValveType => Valve
    case ValveState => Valve
    case BatteryBatteryState => Battery
    case BatterySourceState => Battery
    case BatteryBatteryVoltage => Battery
    case BatteryBusVoltage => Battery
    case BatteryBusCurrent => Battery
    case BatteryBatteryCurrent => Battery
    case BatterySysVoltage => Battery
    case BatteryTsTemperature => Battery
    case BatteryDieTemperature => Battery
    case BatteryChargeVoltage => Battery
    case BatteryChargeCurrent => Battery
    case AdcNumsamples => Adc
    case MotorState => Motor
    case MotorDelayT => Motor
    case MotorRunTime => Motor
    case MotorMaxI => Motor
    case MotorMaxT => Motor
    case MotorBackT => Motor
    case RequestedValveStateReq => Requested
    case RequestedValveStateCounter => Requested
    case WifiSsid => Wifi
    case WifiRssi => Wifi
    case WifiDisconnectTime => Wifi
    case WifiConnectNotFlowing => Wifi
    case WifiConnectSleepMultiplier => Wifi
    case NoneFreeHeap => NoCategory
    case NoneUpTime => NoCategory
    case NoneOtaChecked => NoCategory
    case NoneShadowVer => NoCategory
  }

  /** The field's key within its section. */
  function Key(i: Item): string {
    match i
    case DeviceMacAddr => "mac_addr"
    case DeviceFwVersion => "fw_version"
    case DeviceProvisioned => "dev_provisioned"
    case DeviceInstalled => "dev_installed"
    case DeviceTested => "dev_tested"
    case ValveType => "valve_type"
    case ValveState => "valve_state"
    case BatteryBatteryState => "battery_state"
    case BatterySourceState => "source_state"
    case BatteryBatteryVoltage => "battery_voltage"
    case BatteryBusVoltage => "bus_voltage"
    case BatteryBusCurrent => "bus_current"
    case BatteryBatteryCurrent => "battery_current"
    case BatterySysVoltage => "sys_voltage"
    case BatteryTsTemperature => "ts_temperature"
    case BatteryDieTemperature => "die_temperature"
    case BatteryChargeVoltage => "charge_voltage"
    case BatteryChargeCurrent => "charge_current"
    case AdcNumsamples => "adc_numsamples"
    case MotorState => "motor_state"
    case MotorDelayT => "delayT"
    case MotorRunTime => "runTime"
    case MotorMaxI => "maxI"
    case MotorMaxT => "maxT"
    case MotorBackT => "backT"
    case RequestedValveStateReq => "valve_state_req"
    case RequestedValveStateCounter => "valve_state_counter"
    case WifiSsid => "ssid"
    case WifiRssi => "rssi"
    case WifiDisconnectTime => "disconnect_time"
    case WifiConnectNotFlowing => "connect_not_flowing"
    case WifiConnectSleepMultiplier => "connect_sleep_multiplier"
    case NoneFreeHeap => "free_heap"
    case NoneUpTime => "uptime"
    case NoneOtaChecked => "ota_checked"
    case NoneShadowVer => "shadow_ver"
  }

  function Kind(i: Item): ItemType {
    match i
    case DeviceMacAddr => StringType
    case DeviceFwVersion => StringType
    case DeviceProvisioned => BoolType
    case DeviceInstalled => BoolType
    case DeviceTested => BoolType
    case ValveType => EnumType
    case ValveState => EnumType
    case BatteryBatteryState => EnumType
    case BatterySourceState => EnumType
    case BatteryBatteryVoltage => IntType
    case BatteryBusVoltage => IntType
    case BatteryBusCurrent => IntType
    case BatteryBatteryCurrent => IntType
    case BatterySysVoltage => IntType
    case BatteryTsTemperature => IntType
    case BatteryDieTemperature => IntType
    case BatteryChargeVoltage => IntType
    case BatteryChargeCurrent => IntType
    case AdcNumsamples => IntType
    case MotorState => EnumType
    case MotorDelayT => IntType
    case MotorRunTime => IntType
    case MotorMaxI => DoubleType
    case MotorMaxT => IntType
    case MotorBackT => IntType
    case RequestedValveStateReq => EnumType
    case RequestedValveStateCounter => IntType
    case WifiSsid => StringType
    case WifiRssi => IntType
    case WifiDisconnectTime => IntType
    case WifiConnectNotFlowing => IntType
    case WifiConnectSleepMultiplier => IntType
    case NoneFreeHeap => IntType
    case NoneUpTime => IntType
    case NoneOtaChecked => IntType
    case NoneShadowVer => IntType
  }

  /** The label the harness prints for the field. */
  function Caption(i: Item): string {
    match i
    case DeviceMacAddr => "MAC Addr"
    case DeviceFwVersion => "Firmware Version"
    case DeviceProvisioned => "Provisioned"
    case DeviceInstalled => "Installed"
    case DeviceTested => "Tested"
    case ValveType => "Valve Type"
    case ValveState => "Valve State"
    case BatteryBatteryState => "Battery State"
    case BatterySourceState => "Source State"
    case BatteryBatteryVoltage => "Battery Voltage"
    case BatteryBusVoltage => "Bus Voltage"
    case BatteryBusCurrent => "Bus Current"
    case BatteryBatteryCurrent => "Battery Current"
    case BatterySysVoltage => "Sys Voltage"
    case BatteryTsTemperature => "TS Temperature"
    case BatteryDieTemperature => "Die Temperature"
    case BatteryChargeVoltage => "Charge Voltage"
    case BatteryChargeCurrent => "Charge Current"
    case AdcNumsamples => "ADC Num Samples"
    case MotorState => "Motor State"
    case MotorDelayT => "Delay T"
    case MotorRunTime => "Run Time"
    case MotorMaxI => "Max I (amp)"
    case MotorMaxT => "Max T (sec)"
    case MotorBackT => "Back-off Time (ms)"
    case RequestedValveStateReq => "Valve State Req"
    case RequestedValveStateCounter => "Valve State Counter"
    case WifiSsid => "SSID"
    case WifiRssi => "RSSI"
    case WifiDisconnectTime => "Disconnect Time"
    case WifiConnectNotFlowing => "Connect Not Flowing"
    case WifiConnectSleepMultiplier => "Connect Sleep Multiplier"
    case NoneFreeHeap => "Free Heap"
    case NoneUpTime => "Up Time"
    case NoneOtaChecked => "OTA Checked"
    case NoneShadowVer => "Shadow Version"
  }

  /** The two values a test alternates between, for the fields that define them. */
  function ToggleValues(i: Item): Option<(string, string)> {
    match i
    case ValveType => Some(("1", "2"))
    case ValveState => Some(("1", "2"))
    case AdcNumsamples => Some(("32", "24"))
    case MotorDelayT => Some(("250", "251"))
    case MotorMaxI => Some(("0.60", "0.61"))
    case MotorMaxT => Some(("14", "15"))
    case MotorBackT => Some(("500", "501"))
    case RequestedValveStateReq => Some(("1", "2"))
    case _ => None
  }

  /** The registry table: one row per field. */
  function Entry(i: Item): ItemDef {
    var t := ToggleValues(i);
    ItemDef(Cat(i), Key(i), Kind(i), Caption(i),
            if t.Some? then Some(t.value.0) else None,
            if t.Some? then Some(t.value.1) else None)
  }

  /** The field's place below `reported` or `desired`: its category section, if any, then its key. */
  function Section(i: Item): seq<string> {
    if Cat(i) == NoCategory then [Key(i)] else [Cat(i).Name(), Key(i)]
  }

  function ReportedPath(i: Item): seq<string> {
    ["state", "reported"] + Section(i)
  }

  function DesiredPath(i: Item): seq<string> {
    ["state", "desired"] + Section(i)
  }

  /** The registry row of a (category, key) pair, when there is one. */
  function Find(c: Category, key: string): Option<Item> {
    match c
    case Device =>
      if key == "mac_addr" then Some(DeviceMacAddr)
      else if key == "fw_version" then Some(DeviceFwVersion)
      else if key == "dev_provisioned" then Some(DeviceProvisioned)
      else if key == "dev_installed" then Some(DeviceInstalled)
      else if key == "dev_tested" then Some(DeviceTested)
      else None
    case Valve =>
      if key == "valve_type" then Some(ValveType)
      else if key == "valve_state" then Some(ValveState)
      else None
    case Battery =>
      if key == "battery_state" then Some(BatteryBatteryState)
      else if key == "source_state" then Some(BatterySourceState)
      else if key == "battery_voltage" then Some(BatteryBatteryVoltage)
      else if key == "bus_voltage" then Some(BatteryBusVoltage)
      else if key == "bus_current" then Some(BatteryBusCurrent)
      else if key == "battery_current" then Some(BatteryBatteryCurrent)
      else if key == "sys_voltage" then Some(BatterySysVoltage)
      else if key == "ts_temperature" then Some(BatteryTsTemperature)
      else if key == "die_temperature" then Some(BatteryDieTemperature)
      else if key == "charge_voltage" then Some(BatteryChargeVoltage)
      else if key == "charge_current" then Some(BatteryChargeCurrent)
      else None
    case Adc =>
      if key == "adc_numsamples" then Some(AdcNumsamples) else None
    case Motor =>
      if key == "motor_state" then Some(MotorState)
      else if key == "delayT" then Some(MotorDelayT)
      else if key == "runTime" then Some(MotorRunTime)
      else if key == "maxI" then Some(MotorMaxI)
      else if key == "maxT" then Some(MotorMaxT)
      else if key == "backT" then Some(MotorBackT)
      else None
    case Requested =>
      if key == "valve_state_req" then Some(RequestedValveStateReq)
      else if key == "valve_state_counter" then Some(RequestedValveStateCounter)
      else None
    case Wifi =>
      if key == "ssid" then Some(WifiSsid)
      else if key == "rssi" then Some(WifiRssi)
      else if key == "disconnect_time" then Some(WifiDisconnectTime)
      else if key == "connect_not_flowing" then Some(WifiConnectNotFlowing)
      else if key == "connect_sleep_multiplier" then Some(WifiConnectSleepMultiplier)
      else None
    case NoCategory =>
      if key == "free_heap" then Some(NoneFreeHeap)
      else if key == "uptime" then Some(NoneUpTime)
      else if key == "ota_checked" then Some(NoneOtaChecked)
      else if key == "shadow_ver" then Some(NoneShadowVer)
      else None
    case _ => None
  }

  /** The rows of one section, each found by its key. */
  lemma FindsDevice()
    ensures Find(Device, "mac_addr") == Some(DeviceMacAddr)
    ensures Find(Device, "fw_version") == Some(DeviceFwVersion)
    ensures Find(Device, "dev_provisioned") == Some(DeviceProvisioned)
    ensures Find(Device, "dev_installed") == Some(DeviceInstalled)
    ensures Find(Device, "dev_tested") == Some(DeviceTested)
  {
  }

  lemma FindsValve()
    ensures Find(Valve, "valve_type") == Some(ValveType)
    ensures Find(Valve, "valve_state") == Some(ValveState)
  {
  }

  lemma FindsBattery1()
    ensures Find(Battery, "battery_state") == Some(BatteryBatteryState)
    ensures Find(Battery, "source_state") == Some(BatterySourceState)
    ensures Find(Battery, "battery_voltage") == Some(BatteryBatteryVoltage)
    ensures Find(Battery, "bus_voltage") == Some(BatteryBusVoltage)
    ensures Find(Battery, "bus_current") == Some(BatteryBusCurrent)
    ensures Find(Battery, "battery_current") == Some(BatteryBatteryCurrent)
  {
  }

  lemma FindsBattery2()
    ensures Find(Battery, "sys_voltage") == Some(BatterySysVoltage)
    ensures Find(Battery, "ts_temperature") == Some(BatteryTsTemperature)
    ensures Find(Battery, "die_temperature") == Some(BatteryDieTemperature)
    ensures Find(Battery, "charge_voltage") == Some(BatteryChargeVoltage)
    ensures Find(Battery, "charge_current") == Some(BatteryChargeCurrent)
  {
  }

  lemma FindsAdc()
    ensures Find(Adc, "adc_numsamples") == Some(AdcNumsamples)
  {
  }

  lemma FindsMotor()
    ensures Find(Motor, "motor_state") == Some(MotorState)
    ensures Find(Motor, "delayT") == Some(MotorDelayT)
    ensures Find(Motor, "runTime") == Some(MotorRunTime)
    ensures Find(Motor, "maxI") == Some(MotorMaxI)
    ensures Find(Motor, "maxT") == Some(MotorMaxT)
    ensures Find(Motor, "backT") == Some(MotorBackT)
  {
  }

  lemma FindsRequested()
    ensures Find(Requested, "valve_state_req") == Some(RequestedValveStateReq)
    ensures Find(Requested, "valve_state_counter") == Some(RequestedValveStateCounter)
  {
  }

  lemma FindsWifi()
    ensures Find(Wifi, "ssid") == Some(WifiSsid)
    ensures Find(Wifi, "rssi") == Some(WifiRssi)
    ensures Find(Wifi, "disconnect_time") == Some(WifiDisconnectTime)
    ensures Find(Wifi, "connect_not_flowing") == Some(WifiConnectNotFlowing)
    ensures Find(Wifi, "connect_sleep_multiplier") == Some(WifiConnectSleepMultiplier)
  {
  }

  lemma FindsUncategorised()
    ensures Find(NoCategory, "free_heap") == Some(NoneFreeHeap)
    ensures Find(NoCategory, "uptime") == Some(NoneUpTime)
    ensures Find(NoCategory, "ota_checked") == Some(NoneOtaChecked)
    ensures Find(NoCategory, "shadow_ver") == Some(NoneShadowVer)
  {
  }

  lemma FindSoundDevice(key: string)
    requires Find(Device, key).Some?
    ensures Cat(Find(Device, key).value) == Device && Key(Find(Device, key).value) == key
  {
  }

  lemma FindSoundValve(key: string)
    requires Find(Valve, key).Some?
    ensures Cat(Find(Valve, key).value) == Valve && Key(Find(Valve, key).value) == key
  {
  }

  lemma FindSoundBattery(key: string)
    requires Find(Battery, key).Some?
    ensures Cat(Find(Battery, key).value) == Battery && Key(Find(Battery, key).value) == key
  {
  }

  lemma FindSoundAdc(key: string)
    requires Find(Adc, key).Some?
    ensures Cat(Find(Adc, key).value) == Adc && Key(Find(Adc, key).value) == key
  {
  }

  lemma FindSoundMotor(key: string)
    requires Find(Motor, key).Some?
    ensures Cat(Find(Motor, key).value) == Motor && Key(Find(Motor, key).value) == key
  {
  }

  lemma FindSoundRequested(key: string)
    requires Find(Requested, key).Some?
    ensures Cat(Find(Requested, key).value) == Requested && Key(Find(Requested, key).value) == key
  {
  }

  lemma FindSoundWifi(key: string)
    requires Find(Wifi, key).Some?
    ensures Cat(Find(Wifi, key).value) == Wifi && Key(Find(Wifi, key).value) == key
  {
  }

  lemma FindSoundNoCategory(key: string)
    requires Find(NoCategory, key).Some?
    ensures Cat(Find(NoCategory, key).value) == NoCategory && Key(Find(NoCategory, key).value) == key
  {
  }

  /**
   * The converse of `FindEntry`: whatever the table returns is the row with
   * exactly that category and key, so the table and the registry agree.
   */
  lemma FindSound(c: Category, key: string)
    requires Find(c, key).Some?
    ensures Cat(Find(c, key).value) == c && Key(Find(c, key).value) == key
  {
    match c
    case Device => FindSoundDevice(key);
    case Valve => FindSoundValve(key);
    case Battery => FindSoundBattery(key);
    case Adc => FindSoundAdc(key);
    case Motor => FindSoundMotor(key);
    case Requested => FindSoundRequested(key);
    case Wifi => FindSoundWifi(key);
    case NoCategory => FindSoundNoCategory(key);
  }

  /** A field's identity is its (category, key): looking a row up by them finds that row. */
  lemma FindEntry(i: Item)
    ensures Find(Cat(i), Key(i)) == Some(i)
  {
    FindsDevice();
    FindsValve();
    FindsBattery1();
    FindsBattery2();
    FindsAdc();
    FindsMotor();
    FindsRequested();
    FindsWifi();
    FindsUncategorised();
    match i
    case DeviceMacAddr =>
    case DeviceFwVersion =>
    case DeviceProvisioned =>
    case DeviceInstalled =>
    case DeviceTested =>
    case ValveType =>
    case ValveState =>
    case BatteryBatteryState =>
    case BatterySourceState =>
    case BatteryBatteryVoltage =>
    case BatteryBusVoltage =>
    case BatteryBusCurrent =>
    case BatteryBatteryCurrent =>
    case BatterySysVoltage =>
    case BatteryTsTemperature =>
    case BatteryDieTemperature =>
    case BatteryChargeVoltage =>
    case BatteryChargeCurrent =>
    case AdcNumsamples =>
    case MotorState =>
    case MotorDelayT =>
    case MotorRunTime =>
    case MotorMaxI =>
    case MotorMaxT =>
    case MotorBackT =>
    case RequestedValveStateReq =>
    case RequestedValveStateCounter =>
    case WifiSsid =>
    case WifiRssi =>
    case WifiDisconnectTime =>
    case WifiConnectNotFlowing =>
    case WifiConnectSleepMultiplier =>
    case NoneFreeHeap =>
    case NoneUpTime =>
    case NoneOtaChecked =>
    case NoneShadowVer =>
  }

  /** No two registry rows share a (category, key). */
  lemma IdentityIsUnique(i: Item, j: Item)
    requires Cat(i) == Cat(j) && Key(i) == Key(j)
    ensures i == j
  {
    FindEntry(i);
    FindEntry(j);
  }

  /** A field that defines toggle values. */
  predicate HasToggle(i: Item) {
    ToggleValues(i).Some?
  }

  /** The first toggle value of a field that has them. */
  function Val1(i: Item): string
    requires HasToggle(i)
  {
    ToggleValues(i).value.0
  }

  /** The second toggle value of a field that has them. */
  function Val2(i: Item): string
    requires HasToggle(i)
  {
    ToggleValues(i).value.1
  }

  /** Every row that defines toggle values defines two different ones, and never just one. */
  lemma ToggleValuesDistinct(i: Item)
    ensures Entry(i).val1.Some? <==> Entry(i).val2.Some?
    ensures HasToggle(i) <==> Entry(i).val1.Some?
    ensures HasToggle(i) ==> Entry(i).val1 == Some(Val1(i)) && Entry(i).val2 == Some(Val2(i))
    ensures HasToggle(i) ==> Val1(i) != Val2(i)
  {
  }

  /** Keys of uncategorised fields never collide with a section name. */
  lemma UncategorisedKeysAreNotSections(i: Item, c: Category)
    requires Cat(i) == NoCategory
    ensures Key(i) != c.Name()
  {
  }

  // ----- reading -----

  /**
   * `get_reported_value_from_json_dict`'s lookup: `state.reported[.category].key`
   * of an incoming document, when every segment is present (a string met
   * where an object is expected counts as absent).
   */
  function GetReported(doc: Doc, i: Item): Option<Json> {
    var key := Key(i);
    if "state" in doc && doc["state"].Obj? then
      var state := doc["state"].fields;
      if "reported" in state && state["reported"].Obj? then
        var reported := state["reported"].fields;
        if Cat(i) == NoCategory then
          if key in reported then Some(reported[key]) else None
        else
          var category := Cat(i).Name();
          if category in reported && reported[category].Obj? then
            var fields := reported[category].fields;
            if key in fields then Some(fields[key]) else None
          else None
      else None
    else None
  }

  /** The nested lookup is the plain path lookup along `state.reported[.category].key`. */
  lemma GetReportedFollowsPath(doc: Doc, i: Item)
    ensures GetReported(doc, i) == LookupDoc(doc, ReportedPath(i))
  {
    var key := Key(i);
    assert ReportedPath(i) == ["state"] + (["reported"] + Section(i));
    LookupCons(Obj(doc), "state", ["reported"] + Section(i));
    if "state" in doc {
      LookupCons(doc["state"], "reported", Section(i));
      if doc["state"].Obj? && "reported" in doc["state"].fields {
        var rep := doc["state"].fields["reported"];
        if Cat(i) == NoCategory {
          assert Section(i) == [key] + [];
          LookupCons(rep, key, []);
        } else {
          assert Section(i) == [Cat(i).Name()] + [key];
          LookupCons(rep, Cat(i).Name(), [key]);
          if rep.Obj? && Cat(i).Name() in rep.fields {
            assert [key] == [key] + [];
            LookupCons(rep.fields[Cat(i).Name()], key, []);
          }
        }
      }
    }
  }

  /** The two mutable slots every registry field carries. */
  datatype Slot = Slot(desired: Option<string>, reported: Option<Json>)

  /** The registry's slots; a field never touched still has both slots empty. */
  type Slots = map<Item, Slot>

  function SlotOf(slots: Slots, i: Item): Slot {
    if i in slots then slots[i] else Slot(None, None)
  }

  function Desired(slots: Slots, i: Item): Option<string> {
    SlotOf(slots, i).desired
  }

  function Reported(slots: Slots, i: Item): Option<Json> {
    SlotOf(slots, i).reported
  }

  /** `item.desired_value = v`. */
  function SetDesiredSlot(slots: Slots, i: Item, v: string): (r: Slots)
    ensures Desired(r, i) == Some(v) && Reported(r, i) == Reported(slots, i)
    ensures forall j :: j != i ==> SlotOf(r, j) == SlotOf(slots, j)
  {
    slots[i := SlotOf(slots, i).(desired := Some(v))]
  }

  datatype ReadResult = ReadResult(found: bool, slots: Slots)

  /**
   * `get_reported_value_from_json_dict`: true, with the reported slot set,
   * exactly when the path is present; otherwise false and nothing changes.
   */
  function ReadReported(slots: Slots, doc: Doc, i: Item): (r: ReadResult)
    ensures r.found <==> LookupDoc(doc, ReportedPath(i)).Some?
    ensures r.found ==> Reported(r.slots, i) == LookupDoc(doc, ReportedPath(i))
    ensures !r.found ==> r.slots == slots
    ensures Desired(r.slots, i) == Desired(slots, i)
    ensures forall j :: j != i ==> SlotOf(r.slots, j) == SlotOf(slots, j)
  {
    GetReportedFollowsPath(doc, i);
    var v := GetReported(doc, i);
    if v.Some? then ReadResult(true, slots[i := SlotOf(slots, i).(reported := v)])
    else ReadResult(false, slots)
  }

  /** Reading twice from the same document gives the same answer and the same slots as reading once. */
  lemma ReadIsIdempotent(slots: Slots, doc: Doc, i: Item)
    ensures ReadReported(ReadReported(slots, doc, i).slots, doc, i) == ReadReported(slots, doc, i)
  {
    var once := ReadReported(slots, doc, i);
    GetReportedFollowsPath(doc, i);
    if once.found {
      assert once.slots[i := SlotOf(once.slots, i).(reported := GetReported(doc, i))] == once.slots;
    }
  }

  /** The harness's `==` between a desired and a reported slot (two empty slots compare equal). */
  predicate Matches(slots: Slots, i: Item) {
    match (Desired(slots, i), Reported(slots, i))
    case (None, None) => true
    case (Some(d), Some(Str(s))) => d == s
    case _ => false
  }

  /** A field's desired value is what the document reports for it. */
  predicate Converged(slots: Slots, doc: Doc, i: Item) {
    Desired(slots, i).Some? && LookupDoc(doc, ReportedPath(i)) == Some(Str(Desired(slots, i).value))
  }

  /** Right after a successful read, the harness's comparison is exactly convergence. */
  lemma MatchAfterRead(slots: Slots, doc: Doc, i: Item)
    requires ReadReported(slots, doc, i).found
    ensures Matches(ReadReported(slots, doc, i).slots, i) <==> Converged(slots, doc, i)
  {
  }

  // ----- toggling -----

  /** The alternate value: `val2` when the field reports `val1`, otherwise `val1`. */
  function Toggle(i: Item, reported: Option<Json>): (d: string)
    requires HasToggle(i)
    ensures d == Val1(i) || d == Val2(i)
    ensures d == Val2(i) <==> reported == Some(Str(Val1(i)))
  {
    ToggleValuesDistinct(i);
    if reported == Some(Str(Val1(i))) then Val2(i) else Val1(i)
  }

  /** From either canonical value the toggle always asks for the other one. */
  lemma ToggleMovesAway(i: Item, reported: Option<Json>)
    requires HasToggle(i)
    requires reported == Some(Str(Val1(i))) || reported == Some(Str(Val2(i)))
    ensures Some(Str(Toggle(i, reported))) != reported
    ensures Toggle(i, Some(Str(Toggle(i, reported)))) == Val1(i)
            || Toggle(i, Some(Str(Toggle(i, reported)))) == Val2(i)
    ensures reported == Some(Str(Val2(i))) ==> Toggle(i, Some(Str(Toggle(i, reported)))) == Val2(i)
  {
    ToggleValuesDistinct(i);
  }

  // ----- writing -----

  /**
   * A field's place below `desired` never starts with the word `desired`,
   * and no key repeats its own section's name, so a wrapper written one level
   * too deep can never be mistaken for the field itself.
   */
  lemma SectionsAreNotWrappers(i: Item)
    ensures Section(i)[0] != "desired"
    ensures Key(i) != Cat(i).Name()
  {
  }

  /**
   * What the write needs of the outgoing document: `state`, `state.desired`
   * and the field's category section are objects wherever they exist.
   */
  predicate WritablePath(doc: Doc, i: Item) {
    "state" in doc ==>
      && doc["state"].Obj?
      && ("desired" in doc["state"].fields ==>
            && doc["state"].fields["desired"].Obj?
            && SectionIsObject(doc["state"].fields["desired"].fields, i))
  }

  /** The field's category section, if present in `desired`, is an object. */
  predicate SectionIsObject(desired: map<string, Json>, i: Item) {
    Cat(i) != NoCategory && Cat(i).Name() in desired ==> desired[Cat(i).Name()].Obj?
  }

  /** Every field can be written into the document. */
  predicate Writable(doc: Doc) {
    forall i :: WritablePath(doc, i)
  }

  /** The field's section already exists, so the write is a plain merge. */
  predicate HasSection(doc: Doc, i: Item)
    requires WritablePath(doc, i)
  {
    && "state" in doc && "desired" in doc["state"].fields
    && (Cat(i) != NoCategory ==> Cat(i).Name() in doc["state"].fields["desired"].fields)
  }

  lemma WritablePathShaped(doc: Doc, i: Item)
    requires WritablePath(doc, i)
    ensures Shaped(Obj(doc), DesiredPath(i))
  {
    var key := Key(i);
    assert DesiredPath(i) == ["state"] + (["desired"] + Section(i));
    ShapedCons(Obj(doc), "state", ["desired"] + Section(i));
    if "state" in doc {
      var st := doc["state"];
      ShapedCons(st, "desired", Section(i));
      if "desired" in st.fields {
        var des := st.fields["desired"];
        if Cat(i) == NoCategory {
          assert Section(i) == [key] + [];
          ShapedCons(des, key, []);
        } else {
          assert Section(i) == [Cat(i).Name()] + [key];
          ShapedCons(des, Cat(i).Name(), [key]);
          if Cat(i).Name() in des.fields {
            ShapedCons(des.fields[Cat(i).Name()], key, []);
          }
        }
      }
    }
  }

  /**
   * `set_desired_value_to_json_dict`: merge `{key: v}` into
   * `state.desired[.category]`. A missing `state` makes the document the full
   * wrapper; a missing `desired` (or category) receives the wrapper that starts
   * at that level again, as the source builds it.
   */
  function SetDesired(doc: Doc, i: Item, v: string): Doc
    requires WritablePath(doc, i)
  {
    var key := Key(i);
    var keyDict := map[key := Str(v)];
    if Cat(i) == NoCategory then
      var sectionDict := map["desired" := Obj(keyDict)];
      if "state" !in doc then map["state" := Obj(sectionDict)]
      else
        var state := doc["state"].fields;
        if "desired" !in state then doc["state" := Obj(state["desired" := Obj(sectionDict)])]
        else
          var desired := state["desired"].fields;
          doc["state" := Obj(state["desired" := Obj(desired[key := Str(v)])])]
    else
      var category := Cat(i).Name();
      var categoryDict := map[category := Obj(keyDict)];
      var sectionDict := map["desired" := Obj(categoryDict)];
      if "state" !in doc then map["state" := Obj(sectionDict)]
      else
        var state := doc["state"].fields;
        if "desired" !in state then doc["state" := Obj(state["desired" := Obj(sectionDict)])]
        else
          var desired := state["desired"].fields;
          if category !in desired then
            doc["state" := Obj(state["desired" := Obj(desired[category := Obj(categoryDict)])])]
          else
            var fields := desired[category].fields;
            doc["state" := Obj(state["desired" := Obj(desired[category := Obj(fields[key := Str(v)])])])]
  }

  /** The wrapper the source builds below `state`, as a nested chain. */
  lemma WrapperIsNest(i: Item, v: string)
    ensures Nest(["desired"] + Section(i), Str(v)) ==
      if Cat(i) == NoCategory then Obj(map["desired" := Obj(map[Key(i) := Str(v)])])
      else Obj(map["desired" := Obj(map[Cat(i).Name() := Obj(map[Key(i) := Str(v)])])])
    ensures Cat(i) != NoCategory ==>
      Nest(Section(i), Str(v)) == Obj(map[Cat(i).Name() := Obj(map[Key(i) := Str(v)])])
  {
    var key := Key(i);
    NestCons(key, [], Str(v));
    assert [key] + [] == [key];
    if Cat(i) == NoCategory {
      NestCons("desired", [key], Str(v));
    } else {
      NestCons(Cat(i).Name(), [key], Str(v));
      assert Section(i) == [Cat(i).Name()] + [key];
      NestCons("desired", Section(i), Str(v));
    }
  }

  /**
   * Every write leaves `state` and `state.desired` as objects. The category
   * section is created by the write only when `desired` already existed;
   * otherwise it sits one `desired` level further down, as the wrapper is built.
   */
  lemma SetDesiredShape(doc: Doc, i: Item, v: string)
    requires WritablePath(doc, i)
    ensures var r := SetDesired(doc, i, v);
      && "state" in r && r["state"].Obj? && "desired" in r["state"].fields && r["state"].fields["desired"].Obj?
      && (Cat(i) != NoCategory && "state" in doc && "desired" in doc["state"].fields ==> Cat(i).Name() in r["state"].fields["desired"].fields)
      && ("state" !in doc ==> r.Keys == {"state"})
      && ("state" in doc ==> r.Keys == doc.Keys && forall k :: k in doc && k != "state" ==> r[k] == doc[k])
  {
  }

  /** Writing into a document without `state` yields exactly the one-field wrapper. */
  lemma SetDesiredFresh(doc: Doc, i: Item, v: string)
    requires WritablePath(doc, i)
    requires "state" !in doc
    ensures Obj(SetDesired(doc, i, v)) == Nest(DesiredPath(i), Str(v))
    ensures LookupDoc(SetDesired(doc, i, v), DesiredPath(i)) == Some(Str(v))
  {
    WrapperIsNest(i, v);
    assert DesiredPath(i) == ["state"] + (["desired"] + Section(i));
    NestCons("state", ["desired"] + Section(i), Str(v));
    LookupNest(DesiredPath(i), Str(v));
  }

  /**
   * Merge law: once `state.desired[.category]` exists, only the field's own
   * key changes; sibling keys, other categories and the rest of the document
   * read as before.
   */
  lemma SetDesiredMerge(doc: Doc, i: Item, v: string)
    requires WritablePath(doc, i)
    requires HasSection(doc, i)
    ensures LookupDoc(SetDesired(doc, i, v), DesiredPath(i)) == Some(Str(v))
    ensures forall p :: !(p <= DesiredPath(i)) && !(DesiredPath(i) <= p)
              ==> LookupDoc(SetDesired(doc, i, v), p) == LookupDoc(doc, p)
  {
    var path := DesiredPath(i);
    var key := Key(i);
    var x := Str(v);
    var st := doc["state"];
    var des := st.fields["desired"];
    assert path == ["state"] + (["desired"] + Section(i));
    PutCons(Obj(doc), "state", ["desired"] + Section(i), x);
    PutCons(st, "desired", Section(i), x);
    if Cat(i) == NoCategory {
      assert Section(i) == [key] + [];
      PutCons(des, key, [], x);
    } else {
      var cat := des.fields[Cat(i).Name()];
      assert Section(i) == [Cat(i).Name()] + [key];
      PutCons(des, Cat(i).Name(), [key], x);
      assert [key] == [key] + [];
      PutCons(cat, key, [], x);
    }
    assert Obj(SetDesired(doc, i, v)) == Put(Obj(doc), path, x);
    WritablePathShaped(doc, i);
    LookupPut(Obj(doc), path, x);
    forall p | !(p <= path) && !(path <= p)
      ensures LookupDoc(SetDesired(doc, i, v), p) == LookupDoc(doc, p)
    {
      LookupPutFrame(Obj(doc), path, x, p);
    }
  }

  /**
   * The nesting quirk: when `state` exists but `desired` does not, the whole
   * `{desired: ...}` wrapper becomes the value of `desired`, so the field lands
   * at `state.desired.desired[.category].key` and not at its own path; the
   * rest of the document is kept.
   */
  lemma SetDesiredMissingSection(doc: Doc, i: Item, v: string)
    requires WritablePath(doc, i)
    requires "state" in doc && "desired" !in doc["state"].fields
    ensures LookupDoc(SetDesired(doc, i, v), ["state", "desired"]) == Some(Nest(["desired"] + Section(i), Str(v)))
    ensures LookupDoc(SetDesired(doc, i, v), DesiredPath(i)).None?
    ensures forall p :: !(p <= ["state", "desired"]) && !(["state", "desired"] <= p)
              ==> LookupDoc(SetDesired(doc, i, v), p) == LookupDoc(doc, p)
  {
    var w := ["state", "desired"];
    var x := Nest(["desired"] + Section(i), Str(v));
    var st := doc["state"];
    WrapperIsNest(i, v);
    assert w == ["state"] + (["desired"] + []);
    PutCons(Obj(doc), "state", ["desired"], x);
    PutCons(st, "desired", [], x);
    var r := SetDesired(doc, i, v);
    assert Obj(r) == Put(Obj(doc), w, x);
    ShapedCons(Obj(doc), "state", ["desired"]);
    ShapedCons(st, "desired", []);
    LookupPut(Obj(doc), w, x);
    LookupPrefix(Obj(r), w, Section(i));
    assert DesiredPath(i) == w + Section(i);
    SectionsAreNotWrappers(i);
    LookupNestOff(["desired"] + Section(i), Str(v), Section(i));
    forall p | !(p <= w) && !(w <= p)
      ensures LookupDoc(r, p) == LookupDoc(doc, p)
    {
      LookupPutFrame(Obj(doc), w, x, p);
    }
  }

  /**
   * The same quirk one level down: a category missing under an existing
   * `desired` receives `{category: {key: v}}`, so the field lands at
   * `state.desired.<cat>.<cat>.key` and not at its own path; the rest of the
   * document is kept.
   */
  lemma SetDesiredMissingCategory(doc: Doc, i: Item, v: string)
    requires WritablePath(doc, i)
    requires Cat(i) != NoCategory
    requires "state" in doc && "desired" in doc["state"].fields
    requires Cat(i).Name() !in doc["state"].fields["desired"].fields
    ensures LookupDoc(SetDesired(doc, i, v), ["state", "desired", Cat(i).Name()]) == Some(Nest(Section(i), Str(v)))
    ensures LookupDoc(SetDesired(doc, i, v), DesiredPath(i)).None?
    ensures forall p :: !(p <= ["state", "desired", Cat(i).Name()]) && !(["state", "desired", Cat(i).Name()] <= p)
              ==> LookupDoc(SetDesired(doc, i, v), p) == LookupDoc(doc, p)
  {
    var key := Key(i);
    var name := Cat(i).Name();
    var w := ["state", "desired", name];
    var x := Nest(Section(i), Str(v));
    var st := doc["state"];
    var des := st.fields["desired"];
    WrapperIsNest(i, v);
    assert w == ["state"] + (["desired"] + ([name] + []));
    PutCons(Obj(doc), "state", ["desired", name], x);
    assert ["desired", name] == ["desired"] + [name];
    PutCons(st, "desired", [name], x);
    assert [name] == [name] + [];
    PutCons(des, name, [], x);
    var r := SetDesired(doc, i, v);
    assert Obj(r) == Put(Obj(doc), w, x);
    ShapedCons(Obj(doc), "state", ["desired", name]);
    ShapedCons(st, "desired", [name]);
    ShapedCons(des, name, []);
    LookupPut(Obj(doc), w, x);
    LookupPrefix(Obj(r), w, [key]);
    assert DesiredPath(i) == w + [key];
    SectionsAreNotWrappers(i);
    assert Section(i) == [name, key];
    LookupNestOff(Section(i), Str(v), [key]);
    forall p | !(p <= w) && !(w <= p)
      ensures LookupDoc(r, p) == LookupDoc(doc, p)
    {
      LookupPutFrame(Obj(doc), w, x, p);
    }
  }

  /** A category section that can be looked up exists, so writing a field of it is a plain merge. */
  lemma HasSectionFromLookup(doc: Doc, i: Item)
    requires WritablePath(doc, i) && Cat(i) != NoCategory
    requires LookupDoc(doc, ["state", "desired", Cat(i).Name()]).Some?
    ensures HasSection(doc, i)
  {
    var name := Cat(i).Name();
    assert ["state", "desired", name] == ["state"] + (["desired"] + ([name] + []));
    LookupCons(Obj(doc), "state", ["desired"] + ([name] + []));
    var st := doc["state"];
    LookupCons(st, "desired", [name] + []);
    var des := st.fields["desired"];
    LookupCons(des, name, []);
  }

  /** Looking up a path in two stages. */
  lemma {:induction false} LookupPrefix(j: Json, a: seq<string>, b: seq<string>)
    requires Lookup(j, a).Some?
    ensures Lookup(j, a + b) == Lookup(Lookup(j, a).value, b)
    decreases |a|
  {
    if |a| > 0 {
      assert (a + b)[0] == a[0];
      assert (a + b)[1..] == a[1..] + b;
      LookupPrefix(j.fields[a[0]], a[1..], b);
    } else {
      assert a + b == b;
    }
  }

  /** Writing any field keeps every category section an object, so the next write is always possible. */
  lemma SetDesiredKeepsWritable(doc: Doc, i: Item, v: string)
    requires Writable(doc)
    ensures Writable(SetDesired(doc, i, v))
  {
    forall j: Item ensures WritablePath(SetDesired(doc, i, v), j) {
      SetDesiredKeepsPath(doc, i, v, j);
    }
  }

  /** Writing field `i` leaves the path of any other field `j` writable if it was. */
  lemma SetDesiredKeepsPath(doc: Doc, i: Item, v: string, j: Item)
    requires WritablePath(doc, i) && WritablePath(doc, j)
    ensures WritablePath(SetDesired(doc, i, v), j)
  {
    var r := SetDesired(doc, i, v);
    SectionsAreNotWrappers(i);
    if Cat(i) == NoCategory {
      UncategorisedKeysAreNotSections(i, Cat(j));
    }
    if "state" in doc && "desired" in doc["state"].fields {
      var desired := doc["state"].fields["desired"].fields;
      var desired' := r["state"].fields["desired"].fields;
      if Cat(i) == NoCategory {
        assert desired' == desired[Key(i) := Str(v)];
      } else {
        assert desired'.Keys == desired.Keys + {Cat(i).Name()};
        assert desired'[Cat(i).Name()].Obj?;
      }
      assert SectionIsObject(desired', j);
    }
  }

  /** `set_desired_values_to_json_dict`: each field's desired value, in order, into the same document. */
  function SetDesiredValues(doc: Doc, items: seq<Item>, slots: Slots): (r: Doc)
    requires Writable(doc)
    requires forall k :: 0 <= k < |items| ==> Desired(slots, items[k]).Some?
    ensures Writable(r)
    ensures |items| > 0 ==> "state" in r
    ensures |items| == 0 ==> r == doc
    decreases |items|
  {
    if |items| == 0 then doc
    else
      SetDesiredKeepsWritable(doc, items[0], Desired(slots, items[0]).value);
      SetDesiredValues(SetDesired(doc, items[0], Desired(slots, items[0]).value), items[1..], slots)
  }

  /**
   * Two fields of the same category written one after the other into an empty
   * document: the second merges beside the first, and both read back.
   */
  lemma SameCategoryPair(a: Item, b: Item, va: string, vb: string)
    requires Cat(a) == Cat(b) && a != b
    ensures Writable(SetDesired(map[], a, va))
    ensures LookupDoc(SetDesired(SetDesired(map[], a, va), b, vb), DesiredPath(a)) == Some(Str(va))
    ensures LookupDoc(SetDesired(SetDesired(map[], a, va), b, vb), DesiredPath(b)) == Some(Str(vb))
  {
    var d1 := SetDesired(map[], a, va);
    SetDesiredFresh(map[], a, va);
    SetDesiredKeepsWritable(map[], a, va);
    assert HasSection(d1, b);
    SetDesiredMerge(d1, b, vb);
    if Key(a) == Key(b) {
      IdentityIsUnique(a, b);
    }
    var pa := DesiredPath(a);
    var pb := DesiredPath(b);
    assert |pa| == |pb| && pa[|pa| - 1] != pb[|pb| - 1];
    assert !(pa <= pb) && !(pb <= pa);
  }

  /**
   * Two fields of the same category written one after the other into an empty
   * document are both present afterwards, neither overwriting the other.
   */
  lemma SameCategoryMerge(a: Item, b: Item, slots: Slots)
    requires Cat(a) == Cat(b) && a != b
    requires Desired(slots, a).Some? && Desired(slots, b).Some?
    ensures LookupDoc(SetDesiredValues(map[], [a, b], slots), DesiredPath(a)) == Some(Str(Desired(slots, a).value))
    ensures LookupDoc(SetDesiredValues(map[], [a, b], slots), DesiredPath(b)) == Some(Str(Desired(slots, b).value))
  {
    var va := Desired(slots, a).value;
    var vb := Desired(slots, b).value;
    SameCategoryPair(a, b, va, vb);
    var d2 := SetDesired(SetDesired(map[], a, va), b, vb);
    assert [a, b][1..] == [b];
    assert [b][1..] == [];
    assert SetDesiredValues(map[], [a, b], slots) == d2;
  }
}
