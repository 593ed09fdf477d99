/**
 * Screens (`XScreen`): the ownership tags of the windows and colormaps a
 * screen hands out, and the assembly of RandR monitor records, with
 * product name and serial taken from each monitor's EDID block. The EDID
 * parser itself is not part of this model; it is a parameter.
 */
module Screen {
  import opened Wrappers
  import opened Native
  import Atom
  import Window
  import Colormap
  import Display

  /** `XScreen`: the screen structure, its display, and the root window id stored in it. */
  datatype Screen = Screen(handle: int, display: Display.Display, root: int)

  /** `root_window`: the root belongs to the server, never to the wrapper. */
  function RootWindow(s: Screen): (r: Window.Window)
    ensures r.handle == s.root && r.display == s.display.handle
    ensures r.ownership == Window.Foreign
  {
    Window.New(s.root, s.display.handle, Window.Foreign)
  }

  /**
   * `composite_window`: `overlay` is what XCompositeGetOverlayWindow
   * returns for the root; the wrapper releases it on drop.
   */
  function CompositeWindow(s: Screen, overlay: int): (r: Window.Window)
    ensures r.handle == overlay && r.display == s.display.handle
    ensures r.ownership == Window.OwnedCompositeOverlay
  {
    Window.New(overlay, s.display.handle, Window.OwnedCompositeOverlay)
  }

  /** `ColormapAllocation` with its native values. */
  datatype ColormapAllocation = AllocNone | AllocAll

  function AllocationToNative(a: ColormapAllocation): int {
    match a
    case AllocNone => 0
    case AllocAll => 1
  }

  /** The XCreateColormap call `create_colormap` issues. */
  datatype CreateColormapCall = CreateColormapCall(display: int, window: int, visual: int, alloc: int)

  /** `create_colormap`: a colormap for the root window; `created` is the new id, which the wrapper owns. */
  function CreateColormap(s: Screen, visual: int, allocation: ColormapAllocation, created: int): (r: (Colormap.Colormap, CreateColormapCall))
    ensures r.0.handle == created && r.0.display == s.display.handle
    ensures r.0.ownership == Colormap.Owned
    ensures r.1 == CreateColormapCall(s.display.handle, s.root, visual, AllocationToNative(allocation))
  {
    (Colormap.New(created, s.display.handle, Colormap.Owned),
     CreateColormapCall(s.display.handle, RootWindow(s).handle, visual, AllocationToNative(allocation)))
  }

  /** `create_simple_window`: a simple child of the root; the root wrapper it goes through releases nothing. */
  function CreateSimpleWindow(s: Screen, x: int, y: int, width: int, height: int, borderWidth: int, border: int, background: int, created: int): (r: (Window.Window, Window.SimpleCreateCall))
    ensures r.0 == Window.Window(created, s.display.handle, Window.Owned)
    ensures r.1.parent == s.root && r.1.display == s.display.handle
    ensures Window.Drop(RootWindow(s)).None?
  {
    Window.CreateSimpleChildWindow(RootWindow(s), x, y, width, height, borderWidth, border, background, created)
  }

  // ---------------------------------------------------------------------
  // Monitors
  // ---------------------------------------------------------------------

  /** `XRRMonitorInfo`: the fields the wrapper reads; `outputs` holds the output ids. */
  datatype MonitorNative = MonitorNative(
    name: int, primary: int, automatic: int, noutput: int,
    x: int, y: int, width: int, height: int, mwidth: int, mheight: int,
    outputs: seq<int>)

  /** The part of a parsed EDID block the wrapper uses. */
  datatype MonitorDescriptor = MonitorName(name: string) | OtherDescriptor
  datatype Edid = Edid(descriptors: seq<MonitorDescriptor>, serialNumber: int)

  /** `XRandRMonitorInfo`. */
  datatype MonitorInfo = MonitorInfo(
    connectionName: Atom.Atom, monitorName: Option<string>, monitorSerial: Option<int>,
    primary: bool, automatic: bool, outputCount: int,
    x: int, y: int, width: int, height: int, physicalWidth: int, physicalHeight: int)

  /** The XRRGetOutputProperty read of an EDID block: output, property, offset 0, length 100, no delete, no pending, any type. */
  datatype EdidRead = EdidRead(display: int, output: int, property: int, offset: int, length: int, delete: int, pending: int, reqType: int)

  /** XRRGetOutputProperty as an oracle: the bytes it returns for a read. */
  type EdidFetch = EdidRead -> seq<bv8>

  /** The EDID parser as an oracle: `None` where it returns an error. */
  type EdidParse = seq<bv8> -> Option<Edid>

  /** The name of the first monitor-name descriptor, if any (`find_map`). */
  function FirstMonitorName(ds: seq<MonitorDescriptor>): (r: Option<string>)
    ensures r.None? <==> forall i :: 0 <= i < |ds| ==> !ds[i].MonitorName?
    ensures r.Some? ==> exists i :: 0 <= i < |ds| && ds[i] == MonitorName(r.value) && forall j :: 0 <= j < i ==> !ds[j].MonitorName?
  {
    if ds == [] then None
    else if ds[0].MonitorName? then Some(ds[0].name)
    else
      var r := FirstMonitorName(ds[1..]);
      if r.Some? then
        var i :| 0 <= i < |ds[1..]| && ds[1..][i] == MonitorName(r.value) && forall j :: 0 <= j < i ==> !ds[1..][j].MonitorName?;
        assert ds[i + 1] == MonitorName(r.value);
        r
      else r
  }

  /** The EDID read for one monitor, if the wrapper issues one: only with the EDID atom and at least one output, on the first output. */
  function EdidReadFor(display: int, info: MonitorNative, edidAtom: Option<Atom.Atom>): (r: Option<EdidRead>)
    requires info.noutput > 0 ==> |info.outputs| > 0
    ensures r.Some? <==> edidAtom.Some? && info.noutput > 0
    ensures r.Some? ==> r.value == EdidRead(display, info.outputs[0], edidAtom.value.id, 0, 100, 0, 0, 0)
  {
    if edidAtom.Some? && info.noutput > 0 then Some(EdidRead(display, info.outputs[0], edidAtom.value.id, 0, 100, 0, 0, 0))
    else None
  }

  /**
   * The record for one monitor: the native fields copied (flags as
   * `!= 0`), the connection name as an atom, and name and serial from the
   * EDID block when it is read and parses.
   */
  function MonitorRecord(display: int, info: MonitorNative, edidAtom: Option<Atom.Atom>, fetch: EdidFetch, parse: EdidParse): (r: MonitorInfo)
    requires info.noutput > 0 ==> |info.outputs| > 0
    ensures r.connectionName == Atom.Atom(info.name, display)
    ensures r.primary == (info.primary != 0) && r.automatic == (info.automatic != 0)
    ensures r.outputCount == info.noutput && r.x == info.x && r.y == info.y && r.width == info.width && r.height == info.height
    ensures r.physicalWidth == info.mwidth && r.physicalHeight == info.mheight
    ensures r.monitorSerial.None? <==> EdidReadFor(display, info, edidAtom).None? || parse(fetch(EdidReadFor(display, info, edidAtom).value)).None?
    ensures r.monitorSerial.None? ==> r.monitorName.None?
    ensures r.monitorSerial.Some? ==>
              var edid := parse(fetch(EdidReadFor(display, info, edidAtom).value)).value;
              r.monitorSerial == Some(edid.serialNumber) && r.monitorName == FirstMonitorName(edid.descriptors)
  {
    var edid := match EdidReadFor(display, info, edidAtom) case None => None case Some(read) => parse(fetch(read));
    var (name, serial) := match edid case None => (None, None) case Some(e) => (FirstMonitorName(e.descriptors), Some(e.serialNumber));
    MonitorInfo(Atom.Atom(info.name, display), name, serial, NonZero(info.primary), NonZero(info.automatic), info.noutput,
                info.x, info.y, info.width, info.height, info.mwidth, info.mheight)
  }

  /** Every monitor reporting outputs lists at least its first one (XRRGetMonitors allocates `noutput` ids). */
  predicate OutputsListed(infos: seq<MonitorNative>) {
    forall i :: 0 <= i < |infos| ==> (infos[i].noutput > 0 ==> |infos[i].outputs| > 0)
  }

  /** The EDID reads for a run of monitors: the one each monitor gets, if any, in monitor order. */
  function ReadsFor(display: int, infos: seq<MonitorNative>, edidAtom: Option<Atom.Atom>): (r: seq<EdidRead>)
    requires OutputsListed(infos)
    ensures |r| <= |infos|
    ensures edidAtom.None? ==> r == []
    ensures edidAtom.Some? && (forall i :: 0 <= i < |infos| ==> infos[i].noutput > 0) ==> |r| == |infos|
    ensures forall k :: 0 <= k < |r| ==> r[k].property == edidAtom.value.id && r[k].offset == 0 && r[k].length == 100
    decreases |infos|
  {
    if infos == [] then []
    else
      var last := infos[|infos| - 1];
      var earlier := ReadsFor(display, infos[..|infos| - 1], edidAtom);
      match EdidReadFor(display, last, edidAtom)
      case None => earlier
      case Some(read) => earlier + [read]
  }

  /** The records for a run of monitors, one per monitor in monitor order. */
  function RecordsFor(display: int, infos: seq<MonitorNative>, edidAtom: Option<Atom.Atom>, fetch: EdidFetch, parse: EdidParse): (r: seq<MonitorInfo>)
    requires OutputsListed(infos)
    ensures |r| == |infos|
    decreases |infos|
  {
    if infos == [] then []
    else RecordsFor(display, infos[..|infos| - 1], edidAtom, fetch, parse) + [MonitorRecord(display, infos[|infos| - 1], edidAtom, fetch, parse)]
  }

  /** The k-th record is the record of the k-th monitor. */
  lemma {:induction false} RecordsForElements(display: int, infos: seq<MonitorNative>, edidAtom: Option<Atom.Atom>, fetch: EdidFetch, parse: EdidParse)
    requires OutputsListed(infos)
    ensures forall k :: 0 <= k < |infos| ==> RecordsFor(display, infos, edidAtom, fetch, parse)[k] == MonitorRecord(display, infos[k], edidAtom, fetch, parse)
    decreases |infos|
  {
    if infos != [] {
      var earlier := infos[..|infos| - 1];
      RecordsForElements(display, earlier, edidAtom, fetch, parse);
      forall k | 0 <= k < |infos| - 1
        ensures RecordsFor(display, infos, edidAtom, fetch, parse)[k] == MonitorRecord(display, infos[k], edidAtom, fetch, parse)
      {
        assert earlier[k] == infos[k];
      }
    }
  }

  /** One more monitor adds its own record, and its own EDID read if any, after those of the monitors before it. */
  lemma MonitorsStep(display: int, infos: seq<MonitorNative>, i: int, edidAtom: Option<Atom.Atom>, fetch: EdidFetch, parse: EdidParse)
    requires OutputsListed(infos) && 0 <= i < |infos|
    ensures OutputsListed(infos[..i]) && OutputsListed(infos[..i + 1])
    ensures RecordsFor(display, infos[..i + 1], edidAtom, fetch, parse)
            == RecordsFor(display, infos[..i], edidAtom, fetch, parse) + [MonitorRecord(display, infos[i], edidAtom, fetch, parse)]
    ensures ReadsFor(display, infos[..i + 1], edidAtom)
            == ReadsFor(display, infos[..i], edidAtom)
               + (match EdidReadFor(display, infos[i], edidAtom) case None => [] case Some(read) => [read])
  {
    assert infos[..i + 1][..i] == infos[..i];
  }

  /**
   * `get_monitors`: `monitors` is what XRRGetMonitors returns (`None` for
   * null); the EDID atom is looked up once, then one record is built per
   * monitor, in order. Also returns the EDID reads issued, in order.
   */
  method GetMonitors(s: Screen, monitors: Option<seq<MonitorNative>>, intern: Display.Interner, fetch: EdidFetch, parse: EdidParse)
    returns (out: seq<MonitorInfo>, edidReads: seq<EdidRead>)
    requires monitors.Some? ==> OutputsListed(monitors.value)
    ensures monitors.None? ==> out == [] && edidReads == []
    ensures monitors.Some? ==> |out| == |monitors.value|
    ensures monitors.Some? ==>
              var edidAtom := Display.GetAtom(s.display, "EDID", intern);
              && (forall i :: 0 <= i < |out| ==> out[i] == MonitorRecord(s.display.handle, monitors.value[i], edidAtom, fetch, parse))
              && edidReads == ReadsFor(s.display.handle, monitors.value, edidAtom)
  {
    if monitors.None? {
      return [], [];
    }
    assert NoNul("EDID");
    var edidAtom := Display.GetAtom(s.display, "EDID", intern);
    out, edidReads := MonitorRecords(s.display.handle, monitors.value, edidAtom, fetch, parse);
    RecordsForElements(s.display.handle, monitors.value, edidAtom, fetch, parse);
  }

  /** The loop of `get_monitors`: one record per monitor, in order, and the EDID reads it issues. */
  method MonitorRecords(display: int, infos: seq<MonitorNative>, edidAtom: Option<Atom.Atom>, fetch: EdidFetch, parse: EdidParse)
    returns (out: seq<MonitorInfo>, edidReads: seq<EdidRead>)
    requires OutputsListed(infos)
    ensures out == RecordsFor(display, infos, edidAtom, fetch, parse)
    ensures edidReads == ReadsFor(display, infos, edidAtom)
  {
    out := [];
    edidReads := [];
    var i := 0;
    while i < |infos|
      invariant 0 <= i <= |infos|
      invariant out == RecordsFor(display, infos[..i], edidAtom, fetch, parse)
      invariant edidReads == ReadsFor(display, infos[..i], edidAtom)
    {
      var info := infos[i];
      var read := EdidReadFor(display, info, edidAtom);
      MonitorsStep(display, infos, i, edidAtom, fetch, parse);
      if read.Some? {
        edidReads := edidReads + [read.value];
      }
      out := out + [MonitorRecord(display, info, edidAtom, fetch, parse)];
      i := i + 1;
    }
    assert infos[..i] == infos;
  }


}
