/**
 * XInput2 devices (`XInputDevice`): a device id on a display, with the
 * two sentinel ids naming every device and every master device. Their
 * property access is the generic one of `Property` with a device holder.
 */
module Input {
  import Property

  /** `XIAllDevices`. */
  const ALL_DEVICES: int := 0
  /** `XIAllMasterDevices`. */
  const ALL_MASTER_DEVICES: int := 1

  datatype Device = Device(display: int, id: int)

  /** `from_id`: wrap an existing device id. */
  function FromId(id: int, display: int): (r: Device)
    ensures r.id == id && r.display == display
  {
    Device(display, id)
  }

  /** `all`: the pseudo-device standing for every device. */
  function All(display: int): (r: Device)
    ensures r.id == ALL_DEVICES && r.display == display
    ensures r == FromId(ALL_DEVICES, display)
  {
    Device(display, ALL_DEVICES)
  }

  /** `all_master`: the pseudo-device standing for every master device. */
  function AllMaster(display: int): (r: Device)
    ensures r.id == ALL_MASTER_DEVICES && r.display == display
    ensures r != All(display)
  {
    Device(display, ALL_MASTER_DEVICES)
  }

  /** `id`. */
  function Id(d: Device): int {
    d.id
  }

  /** Wrapping an id and asking for it gives it back; two wrapped ids are the same device iff they are equal. */
  lemma FromIdId(id: int, id': int, display: int)
    ensures Id(FromId(id, display)) == id
    ensures FromId(id, display) == FromId(id', display) <==> id == id'
  {
  }

  /** The holder the device's property calls (XIGetProperty, XIChangeProperty, XIDeleteProperty) address. */
  function AsHolder(d: Device): (h: Property.Holder)
    ensures h.DeviceHolder? && Property.HolderDisplay(h) == d.display && h.device == d.id
  {
    Property.DeviceHolder(d.display, d.id)
  }
}
