/**
 * The Panasonic tablet-button ACPI driver (panasonic-hbtn.c): the notify
 * handler that turns a firmware notification into a key report, and the
 * add/remove handlers that attach the driver's context and input device to
 * an ACPI device.
 *
 * Kernel services are collaborators: what they answer (the HINF query's
 * result, whether an allocation or a registration succeeds) is a parameter,
 * and each handler returns the trace of the services it called, in order
 * (see KernelServices). Fields the source writes are fields of the classes
 * below.
 */
module Hbtn {
  import opened Wrappers
  import opened StatusWord
  import opened SparseKeymap
  import opened KernelServices

  const MethodHbtnQuery: string := "HINF"
  const HbtnNotify: U32 := 0x80
  const AcpiPccDriverName: string := "Panasonic Tablet Button Support"
  const AcpiPccDeviceName: string := "TabletButton"
  const AcpiPccClass: string := "pcc"
  const AcpiPccInputPhys: string := "panasonic/hbtn0"

  /** BUS_HOST from the Linux input headers. */
  const BusHost: int := 0x19

  const EINVAL: int := 22
  const ENOMEM: int := 12

  /** The part of `struct acpi_device` the driver touches. */
  class AcpiDevice {
    const handle: Handle
    /** `dev_name(&device->dev)`. */
    const busId: string
    /** `acpi_device_name(device)`. */
    var deviceName: string
    /** `acpi_device_class(device)`, i.e. `pnp.device_class`. */
    var deviceClass: string
    /** `device->driver_data`. */
    var driverData: PccAcpi?

    constructor (handle: Handle, busId: string)
      ensures this.handle == handle && this.busId == busId
      ensures deviceName == "" && deviceClass == "" && driverData == null
    {
      this.handle := handle;
      this.busId := busId;
      deviceName := "";
      deviceClass := "";
      driverData := null;
    }
  }

  /** The part of `struct input_dev` the driver sets up. */
  class InputDev {
    var name: string
    var phys: string
    var bustype: int
    var vendor: int
    var product: int
    var version: int
    /** The keymap installed by `sparse_keymap_setup`, scanned on lookup. */
    var keymap: seq<KeyEntry>

    /** `input_allocate_device`: a zeroed device. */
    constructor ()
      ensures name == "" && phys == "" && bustype == 0 && vendor == 0 && product == 0 && version == 0
      ensures keymap == []
    {
      name, phys := "", "";
      bustype, vendor, product, version := 0, 0, 0, 0;
      keymap := [];
    }

    /** The identity and keymap `acpi_pcc_init_input` gives the device. */
    ghost predicate Configured()
      reads this
    {
      name == AcpiPccDriverName && phys == AcpiPccInputPhys &&
      bustype == BusHost && vendor == 0x0001 && product == 0x0001 && version == 0x0100 &&
      keymap == PanasonicKeymap
    }
  }

  /** The values the notify path reads through a context. */
  datatype Binding = Binding(handle: Handle, deviceClass: string, busId: string, keymap: seq<KeyEntry>)

  /** `struct pcc_acpi`: the driver's per-device context. */
  class PccAcpi {
    var handle: Handle
    var device: AcpiDevice?
    var inputDev: InputDev?

    /** `kzalloc(sizeof(struct pcc_acpi))`: every field zero. */
    constructor ()
      ensures handle == 0 && device == null && inputDev == null
    {
      handle := 0;
      device := null;
      inputDev := null;
    }

    /** What a successful `acpi_pcc_hbtn_add` leaves behind. */
    ghost predicate Bound()
      reads this, device, inputDev
    {
      device != null && inputDev != null &&
      device.driverData == this && handle == device.handle &&
      device.deviceName == AcpiPccDeviceName && device.deviceClass == AcpiPccClass &&
      inputDev.Configured()
    }

    ghost function Snapshot(): Binding
      reads this, device, inputDev
      requires device != null && inputDev != null
    {
      Binding(handle, device.deviceClass, device.busId, inputDev.keymap)
    }

    /**
     * `acpi_pcc_generate_keyinput`: query HINF; on failure stop; otherwise
     * broadcast the raw value, decode it, look the scancode up and, when it
     * is known, report the key once. `query` is the firmware's answer.
     */
    method GenerateKeyinput(query: Option<U64>) returns (effects: seq<Effect>)
      requires device != null && inputDev != null
      ensures effects == KeyinputEffects(Snapshot(), query)
    {
      var hotkInputDev := inputDev;
      effects := [EvaluateInteger(handle, MethodHbtnQuery)];
      if query.None? {
        return;
      }
      var result := query.value;
      effects := effects + [NetlinkEvent(device.deviceClass, device.busId, HbtnNotify, result)];
      var status := Decode(result);
      var ke := Lookup(hotkInputDev.keymap, status.scancode);
      if ke.None? {
        return;
      }
      effects := effects + [ReportKey(ke.value, status.pressed)];
    }
  }

  /** The kernel calls of one run of `acpi_pcc_generate_keyinput`. */
  function KeyinputEffects(b: Binding, query: Option<U64>): (effects: seq<Effect>)
  {
    [EvaluateInteger(b.handle, MethodHbtnQuery)] +
    match query
    case None => []
    case Some(raw) =>
      [NetlinkEvent(b.deviceClass, b.busId, HbtnNotify, raw)] +
      match Lookup(b.keymap, Decode(raw).scancode)
      case None => []
      case Some(key) => [ReportKey(key, Decode(raw).pressed)]
  }

  /** A firmware notification and the answer the HINF query would get. */
  datatype Notification = Notification(event: U32, query: Option<U64>)

  /** The kernel calls of one run of `acpi_pcc_hbtn_notify`. */
  function NotifyEffects(b: Binding, n: Notification): (effects: seq<Effect>)
  {
    if n.event == HbtnNotify then KeyinputEffects(b, n.query) else []
  }

  /**
   * `acpi_pcc_hbtn_notify`: only event 0x80 is handled; any other event
   * reads the context and does nothing else.
   */
  method Notify(device: AcpiDevice, event: U32, query: Option<U64>) returns (effects: seq<Effect>)
    requires event == HbtnNotify ==>
               device.driverData != null && device.driverData.device != null && device.driverData.inputDev != null
    ensures event != HbtnNotify ==> effects == []
    ensures event == HbtnNotify ==> effects == NotifyEffects(device.driverData.Snapshot(), Notification(event, query))
  {
    var pcc := device.driverData;
    if event == HbtnNotify {
      effects := pcc.GenerateKeyinput(query);
    } else {
      effects := [];
    }
  }

  /** A handler's return code and the kernel calls it made. */
  datatype Outcome = Outcome(result: int, effects: seq<Effect>)

  /**
   * The outcome of `acpi_pcc_init_input` when allocation succeeds or not,
   * and `sparse_keymap_setup` and `input_register_device` return the given
   * codes (0 is success).
   */
  function InitInputSpec(inputAlloc: bool, setupError: int, registerError: int): (r: Outcome)
    ensures r.result == 0 <==> inputAlloc && setupError == 0 && registerError == 0
    ensures !inputAlloc ==> r.result == -ENOMEM
    ensures inputAlloc && setupError != 0 ==> r.result == setupError
    ensures inputAlloc && setupError == 0 && registerError != 0 ==> r.result == registerError
    ensures Run(Held(true, NoInput), r.effects) == Some(Held(true, if r.result == 0 then InputRegistered else NoInput))
  {
    if !inputAlloc then Outcome(-ENOMEM, [])
    else if setupError != 0 then Outcome(setupError, [AllocInput, FreeInput])
    else if registerError != 0 then Outcome(registerError, [AllocInput, FreeInput])
    else Outcome(0, [AllocInput, RegisterInput])
  }

  /**
   * `acpi_pcc_init_input`: allocate the input device, give it its identity,
   * install the keymap and register it; on a failure after the allocation,
   * free the device and return the error.
   */
  method InitInput(pcc: PccAcpi, inputAlloc: bool, setupError: int, registerError: int)
    returns (error: int, effects: seq<Effect>)
    modifies pcc
    ensures Outcome(error, effects) == InitInputSpec(inputAlloc, setupError, registerError)
    ensures pcc.handle == old(pcc.handle) && pcc.device == old(pcc.device)
    ensures error == 0 ==> pcc.inputDev != null && fresh(pcc.inputDev) && pcc.inputDev.Configured()
    ensures error != 0 ==> pcc.inputDev == old(pcc.inputDev)
  {
    if !inputAlloc {
      return -ENOMEM, [];
    }
    var inputDev := new InputDev();
    effects := [AllocInput];
    inputDev.name := AcpiPccDriverName;
    inputDev.phys := AcpiPccInputPhys;
    inputDev.bustype := BusHost;
    inputDev.vendor := 0x0001;
    inputDev.product := 0x0001;
    inputDev.version := 0x0100;

    error := setupError;
    if error != 0 {
      effects := effects + [FreeInput];
      return;
    }
    inputDev.keymap := PanasonicKeymap;

    error := registerError;
    if error != 0 {
      effects := effects + [FreeInput];
      return;
    }
    effects := effects + [RegisterInput];

    pcc.inputDev := inputDev;
    return 0, effects;
  }

  /** `acpi_pcc_destroy_input`: unregister the context's input device. */
  method DestroyInput(pcc: PccAcpi) returns (effects: seq<Effect>)
    requires pcc.inputDev != null
    ensures effects == [UnregisterInput]
    ensures Run(Attached, effects) == Some(Held(true, NoInput))
  {
    effects := [UnregisterInput];
  }

  /**
   * The outcome of `acpi_pcc_hbtn_add` for a null or non-null device and the
   * given allocation and registration answers.
   */
  function AddSpec(deviceNull: bool, pccAlloc: bool, inputAlloc: bool, setupError: int, registerError: int): (r: Outcome)
    ensures r.result == 0 <==> !deviceNull && pccAlloc && inputAlloc && setupError == 0 && registerError == 0
    ensures deviceNull ==> r == Outcome(-EINVAL, [])
    ensures !deviceNull && !pccAlloc ==> r == Outcome(-ENOMEM, [])
    ensures !deviceNull && pccAlloc ==> r.result == InitInputSpec(inputAlloc, setupError, registerError).result
    ensures Run(Detached, r.effects) == Some(if r.result == 0 then Attached else Detached)
  {
    if deviceNull then Outcome(-EINVAL, [])
    else if !pccAlloc then Outcome(-ENOMEM, [])
    else
      var init := InitInputSpec(inputAlloc, setupError, registerError);
      RunAppend(Detached, [AllocPcc], init.effects);
      if init.result != 0 then
        RunAppend(Detached, [AllocPcc] + init.effects, [FreePcc]);
        Outcome(init.result, [AllocPcc] + init.effects + [FreePcc])
      else Outcome(0, [AllocPcc] + init.effects)
  }

  /**
   * `acpi_pcc_hbtn_add`. On a failure after the context was allocated the
   * context is freed but `device->driver_data` still points at it, as in
   * the source.
   */
  method Add(device: AcpiDevice?, pccAlloc: bool, inputAlloc: bool, setupError: int, registerError: int)
    returns (result: int, effects: seq<Effect>)
    modifies device
    ensures Outcome(result, effects) == AddSpec(device == null, pccAlloc, inputAlloc, setupError, registerError)
    ensures device != null && !pccAlloc ==> unchanged(device)
    ensures device != null && pccAlloc ==>
              device.driverData != null && fresh(device.driverData) &&
              device.driverData.device == device && device.driverData.handle == device.handle &&
              device.deviceName == AcpiPccDeviceName && device.deviceClass == AcpiPccClass
    ensures device != null && pccAlloc && result == 0 ==>
              device.driverData.Bound() && fresh(device.driverData.inputDev)
    ensures device != null && pccAlloc && result != 0 ==> device.driverData.inputDev == null
  {
    if device == null {
      return -EINVAL, [];
    }
    if !pccAlloc {
      return -ENOMEM, [];
    }
    var pcc := new PccAcpi();
    effects := [AllocPcc];

    pcc.device := device;
    pcc.handle := device.handle;
    device.driverData := pcc;
    device.deviceName := AcpiPccDeviceName;
    device.deviceClass := AcpiPccClass;

    var initEffects;
    result, initEffects := InitInput(pcc, inputAlloc, setupError, registerError);
    effects := effects + initEffects;
    if result != 0 {
      effects := effects + [FreePcc];
      return;
    }
    return 0, effects;
  }

  /** The kernel calls `acpi_pcc_hbtn_remove` makes for a device with a context. */
  const DetachEffects: seq<Effect> := [UnregisterInput, FreePcc]

  /**
   * `acpi_pcc_hbtn_remove`. The source reads `device->driver_data` before it
   * tests `device` for null, so a null device faults instead of returning.
   * Nothing is written: `driver_data` keeps pointing at the freed context.
   */
  method Remove(device: AcpiDevice?) returns (fault: bool, effects: seq<Effect>)
    requires device != null && device.driverData != null ==> device.driverData.inputDev != null
    ensures fault <==> device == null
    ensures device != null && device.driverData == null ==> effects == []
    ensures device != null && device.driverData != null ==> effects == DetachEffects
    ensures device != null && device.driverData != null ==> Run(Attached, effects) == Some(Detached)
  {
    if device == null {
      return true, [];
    }
    var pcc := device.driverData;
    if pcc == null {
      return false, [];
    }
    effects := DestroyInput(pcc);
    RunAppend(Attached, effects, [FreePcc]);
    effects := effects + [FreePcc];
    fault := false;
  }
}
