/** The TGM GATT service: four subscription flags mirrored from the client's CCC writes, the
    notification gates that send a payload only while its flag is set, the registration of
    the application's callbacks, and the battery pull accessor. `bt_gatt_notify` and
    `bt_gatt_attr_read` are not modelled: each call is recorded in `calls`, and what it
    returns is a parameter. */
module TgmService {
  import opened Common
  import Lis2dtw12
  import Maxm86161

  /** `BT_GATT_CCC_NOTIFY`: the CCC value by which a client subscribes to notifications. */
  const BT_GATT_CCC_NOTIFY: u16 := 0x0001

  // ---------------------------------------------------------------------------------------
  // Attribute table

  /** The service's characteristics, in the order the service definition declares them. */
  datatype Characteristic = DeviceId | FwVersion | Battery | PpgData | AccData | TempData

  /** The characteristics with a CCC descriptor, i.e. those the service notifies on. */
  predicate Notifiable(c: Characteristic)
  {
    c.Battery? || c.PpgData? || c.AccData? || c.TempData?
  }

  /** One attribute of the service: the service declaration, a characteristic's declaration
      and value (two attributes per characteristic), or a CCC descriptor (one more). */
  datatype Attribute = PrimaryService | Declaration(c: Characteristic) | Value(c: Characteristic) | Ccc(c: Characteristic)

  /** The attributes of one characteristic, in the order the definition macros emit them. */
  function CharacteristicAttributes(c: Characteristic): (attrs: seq<Attribute>)
    ensures |attrs| == if Notifiable(c) then 3 else 2
  {
    [Declaration(c), Value(c)] + if Notifiable(c) then [Ccc(c)] else []
  }

  /** The attributes of a list of characteristics, one after the other. */
  function Attributes(cs: seq<Characteristic>): seq<Attribute>
  {
    if cs == [] then [] else CharacteristicAttributes(cs[0]) + Attributes(cs[1..])
  }

  /** `tgm_service_svc.attrs`: the service declaration, then device id, firmware version,
      battery, PPG, accelerometer and temperature characteristics. */
  function AttributeTable(): seq<Attribute>
  {
    [PrimaryService] + Attributes([DeviceId, FwVersion, Battery, PpgData, AccData, TempData])
  }

  /** The table in full: 17 attributes. */
  lemma AttributeTableLayout()
    ensures AttributeTable() ==
      [PrimaryService,
       Declaration(DeviceId), Value(DeviceId),
       Declaration(FwVersion), Value(FwVersion),
       Declaration(Battery), Value(Battery), Ccc(Battery),
       Declaration(PpgData), Value(PpgData), Ccc(PpgData),
       Declaration(AccData), Value(AccData), Ccc(AccData),
       Declaration(TempData), Value(TempData), Ccc(TempData)]
  {
  }

  /** The index the send functions pass to `bt_gatt_notify`, as written: an even position
      inside the attribute table, so every notify addresses some attribute of the service. */
  function NotifyAttrIndex(c: Characteristic): (i: nat)
    requires Notifiable(c)
    ensures i < |AttributeTable()| && i % 2 == 0
  {
    AttributeTableLayout();
    match c
    case Battery => 4
    case PpgData => 6
    case AccData => 8
    case TempData => 10
  }

  /** As written, every notify index names a different attribute than the characteristic's
      value: battery notifies through the firmware version's value, PPG through the battery
      value, accelerometer through the PPG declaration, temperature through the PPG CCC. */
  lemma NotifyIndicesMissValues()
    ensures AttributeTable()[NotifyAttrIndex(Battery)] == Value(FwVersion)
    ensures AttributeTable()[NotifyAttrIndex(PpgData)] == Value(Battery)
    ensures AttributeTable()[NotifyAttrIndex(AccData)] == Declaration(PpgData)
    ensures AttributeTable()[NotifyAttrIndex(TempData)] == Ccc(PpgData)
    ensures forall c :: Notifiable(c) ==> AttributeTable()[NotifyAttrIndex(c)] != Value(c)
  {
    AttributeTableLayout();
  }

  /** Corrected notify index: the position of the characteristic's value attribute, the
      one a client subscribed through the CCC right after it expects to be notified on. */
  function ValueAttrIndex(c: Characteristic): (i: nat)
    requires Notifiable(c)
    ensures i + 1 < |AttributeTable()|
    ensures AttributeTable()[i] == Value(c) && AttributeTable()[i + 1] == Ccc(c)
  {
    AttributeTableLayout();
    match c
    case Battery => 6
    case PpgData => 9
    case AccData => 12
    case TempData => 15
  }

  // ---------------------------------------------------------------------------------------
  // Payloads

  /** `struct tgm_service_ppg_data_t`: a frame counter and one frame of PPG samples. */
  datatype PpgFrame = PpgFrame(frameCounter: u32, samples: seq<Maxm86161.PpgSample>)

  /** `struct tgm_service_acc_data_t`: a frame counter and one frame of accelerometer samples. */
  datatype AccFrame = AccFrame(frameCounter: u32, samples: seq<Lis2dtw12.AccSample>)

  /** `struct tgm_service_temp_data_t`: a frame counter and a temperature in centi-degrees. */
  datatype TempFrame = TempFrame(frameCounter: u32, centiTemp: i16)

  datatype Payload = BatteryMv(mv: i32) | Ppg(ppg: PpgFrame) | Acc(acc: AccFrame) | Temp(temp: TempFrame)

  /** `sizeof(struct tgm_service_ppg_data_t)`: a 4-byte counter and `n` samples of two
      `uint32_t` each (the header's sample layout), with no padding. */
  function PpgFrameSize(n: nat): (size: nat)
    ensures size % 4 == 0 && size >= 4
    ensures (size - 4) / 8 == n && (size - 4) % 8 == 0
  {
    DivModUnique(8 * n, 8, n, 0);
    DivModUnique(4 + 8 * n, 4, 1 + 2 * n, 0);
    4 + 8 * n
  }

  /** `sizeof(struct tgm_service_acc_data_t)`: a 4-byte counter and `n` samples of three
      `int16_t`, padded to the 4-byte alignment of the counter. */
  function AccFrameSize(n: nat): (size: nat)
    ensures size % 4 == 0 && 4 + 6 * n <= size < 4 + 6 * n + 4
  {
    (4 + 6 * n + 3) / 4 * 4
  }

  /** `sizeof(struct tgm_service_temp_data_t)`: a 4-byte counter and an `int16_t`, padded. */
  const TEMP_FRAME_SIZE: nat := 8

  /** `sizeof(int32_t)`: the battery notification. */
  const BATTERY_SIZE: nat := 4

  /** A call this service makes into the Bluetooth stack. */
  datatype GattCall =
    | Notify(attrIndex: nat, payload: Payload, len: nat)   // bt_gatt_notify(NULL, &attrs[attrIndex], payload, len)
    | AttrRead(value: seq<u8>)                               // bt_gatt_attr_read(..., value, |value|)

  /** `struct tgm_service_cb`: only whether `bat_cb` is non-NULL matters to this service. */
  datatype Callbacks = Callbacks(hasBatCb: bool)

  /** The four subscription flags. */
  datatype Subscriptions = Subscriptions(battery: bool, ppg: bool, acc: bool, temp: bool)

  /** `NRF_FICR->DEVICEID[1] << 32 | DEVICEID[0]`: the 64-bit device identifier read by the
      device-id accessor; both words can be recovered from it. */
  function DeviceIdValue(lo: u32, hi: u32): (id: u64)
    ensures id % 0x1_0000_0000 == lo && id / 0x1_0000_0000 == hi
  {
    hi * 0x1_0000_0000 + lo
  }

  // ---------------------------------------------------------------------------------------
  // Service state

  class Service {
    /** CONFIG_PPG_SAMPLES_PER_FRAME and CONFIG_ACC_SAMPLES_PER_FRAME. */
    const ppgSamplesPerFrame: u8
    const accSamplesPerFrame: u8

    var notifyPpgData: bool
    var notifyAccData: bool
    var notifyTempData: bool
    var notifyBattery: bool
    var batValue: u16
    var callbacks: Option<Callbacks>
    var calls: seq<GattCall>

    function Subscribed(): Subscriptions
      reads this
    {
      Subscriptions(notifyBattery, notifyPpgData, notifyAccData, notifyTempData)
    }

    /** The state of the module statics at boot: no subscriptions, no callbacks. */
    constructor (ppgSamplesPerFrame: u8, accSamplesPerFrame: u8)
      ensures this.ppgSamplesPerFrame == ppgSamplesPerFrame && this.accSamplesPerFrame == accSamplesPerFrame
      ensures Subscribed() == Subscriptions(false, false, false, false)
      ensures batValue == 0 && callbacks == None && calls == []
    {
      this.ppgSamplesPerFrame := ppgSamplesPerFrame;
      this.accSamplesPerFrame := accSamplesPerFrame;
      notifyPpgData, notifyAccData, notifyTempData, notifyBattery := false, false, false, false;
      batValue := 0;
      callbacks := None;
      calls := [];
    }

    /** CCC write on the PPG characteristic: subscribed exactly when the value is
        NOTIFY; the other three flags are untouched. */
    method CccPpgDataChanged(value: u16)
      modifies this`notifyPpgData
      ensures Subscribed() == old(Subscribed()).(ppg := value == BT_GATT_CCC_NOTIFY)
    {
      notifyPpgData := value == BT_GATT_CCC_NOTIFY;
    }

    /** CCC write on the accelerometer characteristic. */
    method CccAccDataChanged(value: u16)
      modifies this`notifyAccData
      ensures Subscribed() == old(Subscribed()).(acc := value == BT_GATT_CCC_NOTIFY)
    {
      notifyAccData := value == BT_GATT_CCC_NOTIFY;
    }

    /** CCC write on the temperature characteristic. */
    method CccTempDataChanged(value: u16)
      modifies this`notifyTempData
      ensures Subscribed() == old(Subscribed()).(temp := value == BT_GATT_CCC_NOTIFY)
    {
      notifyTempData := value == BT_GATT_CCC_NOTIFY;
    }

    /** CCC write on the battery characteristic. */
    method CccBatteryChanged(value: u16)
      modifies this`notifyBattery
      ensures Subscribed() == old(Subscribed()).(battery := value == BT_GATT_CCC_NOTIFY)
    {
      notifyBattery := value == BT_GATT_CCC_NOTIFY;
    }

    /** Battery read by the client. With a battery callback registered, the cached value
        becomes the callback's result truncated to 16 bits and the client reads its two
        bytes (`readResult` is what the read returns); without one, nothing is read, the
        cache keeps its value and the result is 0. */
    method GetBatValue(batCbResult: i32, readResult: int) returns (r: int)
      modifies this`batValue, this`calls
      ensures old(callbacks).Some? && old(callbacks).value.hasBatCb ==>
        && batValue == batCbResult % 0x1_0000
        && calls == old(calls) + [AttrRead(LittleEndian16(batValue))]
        && r == readResult
      ensures !(old(callbacks).Some? && old(callbacks).value.hasBatCb) ==>
        batValue == old(batValue) && calls == old(calls) && r == 0
    {
      if callbacks.Some? && callbacks.value.hasBatCb {
        batValue := batCbResult % 0x1_0000;
        calls := calls + [AttrRead(LittleEndian16(batValue))];
        r := readResult;
        return;
      }
      r := 0;
    }

    /** `tgm_service_init`: keeps the callbacks only when a struct is given (a NULL argument
        leaves any earlier registration in place); always succeeds. */
    method Init(cbs: Option<Callbacks>) returns (r: int)
      modifies this`callbacks
      ensures r == 0
      ensures callbacks == if cbs.Some? then cbs else old(callbacks)
    {
      if cbs.Some? {
        callbacks := cbs;
      }
      r := 0;
    }

    /** Battery notification: refused with -EACCES and no stack call while unsubscribed;
        otherwise one notify of the 4-byte value, whose result is returned. */
    method SendBatteryNotify(batteryValue: i32, notifyResult: int) returns (r: int)
      modifies this`calls
      ensures !notifyBattery ==> r == -EACCES && calls == old(calls)
      ensures notifyBattery ==>
        r == notifyResult && calls == old(calls) + [Notify(NotifyAttrIndex(Battery), BatteryMv(batteryValue), BATTERY_SIZE)]
    {
      if !notifyBattery {
        return -EACCES;
      }
      calls := calls + [Notify(4, BatteryMv(batteryValue), BATTERY_SIZE)];
      r := notifyResult;
    }

    /** PPG frame notification: gated like the battery; sends the whole frame struct. */
    method SendPpgNotify(frame: PpgFrame, notifyResult: int) returns (r: int)
      modifies this`calls
      ensures !notifyPpgData ==> r == -EACCES && calls == old(calls)
      ensures notifyPpgData ==>
        r == notifyResult && calls == old(calls) + [Notify(NotifyAttrIndex(PpgData), Ppg(frame), PpgFrameSize(ppgSamplesPerFrame))]
    {
      if !notifyPpgData {
        return -EACCES;
      }
      calls := calls + [Notify(6, Ppg(frame), PpgFrameSize(ppgSamplesPerFrame))];
      r := notifyResult;
    }

    /** Accelerometer frame notification: gated like the battery; sends the whole frame struct. */
    method SendAccNotify(frame: AccFrame, notifyResult: int) returns (r: int)
      modifies this`calls
      ensures !notifyAccData ==> r == -EACCES && calls == old(calls)
      ensures notifyAccData ==>
        r == notifyResult && calls == old(calls) + [Notify(NotifyAttrIndex(AccData), Acc(frame), AccFrameSize(accSamplesPerFrame))]
    {
      if !notifyAccData {
        return -EACCES;
      }
      calls := calls + [Notify(8, Acc(frame), AccFrameSize(accSamplesPerFrame))];
      r := notifyResult;
    }

    /** Temperature notification: gated like the battery; sends the whole frame struct. */
    method SendTempNotify(frame: TempFrame, notifyResult: int) returns (r: int)
      modifies this`calls
      ensures !notifyTempData ==> r == -EACCES && calls == old(calls)
      ensures notifyTempData ==>
        r == notifyResult && calls == old(calls) + [Notify(NotifyAttrIndex(TempData), Temp(frame), TEMP_FRAME_SIZE)]
    {
      if !notifyTempData {
        return -EACCES;
      }
      calls := calls + [Notify(10, Temp(frame), TEMP_FRAME_SIZE)];
      r := notifyResult;
    }
  }
}
