/** The Bluetooth LE advertisement scan of the Tauri back end: choosing the
    adapter, building one `BleDevice` record per advertisement sighting, and
    the scan loop that checks the stop channel before every adapter event.
    The adapter, its event stream and the window's event channel are
    replaced by input sequences: a scan is a sequence of ticks, each holding
    what the stop channel answered, the adapter event, and what looking the
    peripheral up returned. */
module BleScan {
  import opened Wrappers

  type Byte = x: int | 0 <= x < 256
  type I16 = x: int | -32768 <= x < 32768
  type U16 = x: int | 0 <= x < 65536

  /** One entry of a peripheral's service-data table: a service UUID (in its
      string form) and the bytes advertised for it. */
  datatype ServiceEntry = ServiceEntry(uuid: string, payload: seq<Byte>)

  /** The property snapshot of a peripheral. `serviceData` lists the
      service-data table in its iteration order; the same order is used for
      both the record's table and its flattened `adv` bytes. The table is a
      hash map, so a snapshot the adapter reports has distinct UUIDs
      (`DistinctUuids`); the model also accepts repeated ones, where the
      record's table keeps the last payload while `adv` holds them all. */
  datatype Properties = Properties(
    localName: Option<string>,
    rssi: Option<I16>,
    manufacturerData: map<U16, seq<Byte>>,
    services: seq<string>,
    serviceData: seq<ServiceEntry>)

  /** The record emitted to the window for one sighting. */
  datatype BleDevice = BleDevice(
    address: string,
    localName: string,
    rssi: I16,
    manufacturerData: map<U16, seq<Byte>>,
    services: seq<string>,
    serviceData: map<string, seq<Byte>>,
    adv: seq<Byte>)

  /** Adapter events; a peripheral id is represented by its string form.
      `OtherEvent` stands for every kind the loop ignores (device updated,
      adapter state changes). */
  datatype Event =
    | DeviceDiscovered(id: string)
    | ManufacturerDataAdvertisement(id: string)
    | ServiceDataAdvertisement(id: string)
    | ServicesAdvertisement(id: string)
    | DeviceConnected(id: string)
    | DeviceDisconnected(id: string)
    | OtherEvent
  {
    /** The four kinds that are handled by looking the peripheral up. */
    predicate CarriesAdvertisement() {
      DeviceDiscovered? || ManufacturerDataAdvertisement? ||
      ServiceDataAdvertisement? || ServicesAdvertisement?
    }
  }

  /** What looking a peripheral up and asking for its properties returned. */
  datatype Lookup =
    | PeripheralMissing
    | PropertiesFailed
    | NoProperties
    | Found(props: Properties)

  /** What a non-blocking receive on the stop channel returned. */
  datatype Poll = Empty | Stopped | Disconnected

  /** One turn of the scan loop: the stop channel is polled, then the event
      is handled (with `lookup` consulted only for advertisement events). */
  datatype Tick = Tick(poll: Poll, event: Event, lookup: Lookup)

  /** How the scan loop ended: on a stop (or abandoned channel), or because
      the adapter stream ran out. */
  datatype Ending = Cancelled | StreamEnded

  /** The adapter pick: the first adapter of the list, or an error when the
      list could not be obtained or is empty. */
  function GetCentral<A>(adapters: Result<seq<A>, string>): (r: Result<A, string>)
    ensures adapters.Err? ==> r == Err("failed to get bluetooth adapters: " + adapters.error)
    ensures adapters.Ok? && |adapters.value| == 0 ==> r == Err("no bluetooth adapter found")
    ensures adapters.Ok? && |adapters.value| > 0 ==> r == Ok(adapters.value[0])
    ensures r.Ok? ==> adapters.Ok? && r.value in adapters.value
  {
    match adapters
    case Err(e) => Err("failed to get bluetooth adapters: " + e)
    case Ok(list) => if |list| == 0 then Err("no bluetooth adapter found") else Ok(list[0])
  }

  /** Total number of service-data bytes. */
  function PayloadLength(entries: seq<ServiceEntry>): nat {
    if |entries| == 0 then 0 else |entries[0].payload| + PayloadLength(entries[1..])
  }

  /** The service-data payloads concatenated in iteration order. */
  function Flatten(entries: seq<ServiceEntry>): (bytes: seq<Byte>)
    ensures |bytes| == PayloadLength(entries)
  {
    if |entries| == 0 then [] else entries[0].payload + Flatten(entries[1..])
  }

  lemma {:induction false} FlattenAppend(a: seq<ServiceEntry>, b: seq<ServiceEntry>)
    ensures Flatten(a + b) == Flatten(a) + Flatten(b)
    ensures PayloadLength(a + b) == PayloadLength(a) + PayloadLength(b)
    decreases |a|
  {
    if |a| == 0 {
      assert a + b == b;
    } else {
      assert (a + b)[1..] == a[1..] + b;
      FlattenAppend(a[1..], b);
    }
  }

  /** Entry `i` is the last one with its UUID, so its payload is the one a
      map built in iteration order keeps. */
  ghost predicate LastWithKey(entries: seq<ServiceEntry>, i: int)
    requires 0 <= i < |entries|
  {
    forall j :: i < j < |entries| ==> entries[j].uuid != entries[i].uuid
  }

  /** The service-data table keyed by UUID string, built by inserting the
      entries in iteration order. */
  function ServiceDataMap(entries: seq<ServiceEntry>): (m: map<string, seq<Byte>>)
    ensures m.Keys == set e | e in entries :: e.uuid
    ensures forall i {:trigger LastWithKey(entries, i)} :: 0 <= i < |entries| && LastWithKey(entries, i) ==> m[entries[i].uuid] == entries[i].payload
  {
    if |entries| == 0 then map[]
    else
      var init := entries[..|entries| - 1];
      var last := entries[|entries| - 1];
      assert entries == init + [last];
      assert forall i {:trigger LastWithKey(entries, i)} :: 0 <= i < |init| && LastWithKey(entries, i) ==>
        LastWithKey(init, i) && init[i] == entries[i] && init[i].uuid != last.uuid;
      ServiceDataMap(init)[last.uuid := last.payload]
  }

  /** No UUID occurs twice in the service-data table. */
  predicate DistinctUuids(entries: seq<ServiceEntry>) {
    forall i, j :: 0 <= i < j < |entries| ==> entries[i].uuid != entries[j].uuid
  }

  /** For a table with distinct UUIDs, as the adapter reports it, every
      entry's payload is kept under its UUID. */
  lemma ServiceDataMapOfDistinct(entries: seq<ServiceEntry>)
    requires DistinctUuids(entries)
    ensures forall i :: 0 <= i < |entries| ==> ServiceDataMap(entries)[entries[i].uuid] == entries[i].payload
  {
    forall i | 0 <= i < |entries|
      ensures ServiceDataMap(entries)[entries[i].uuid] == entries[i].payload
    {
      assert LastWithKey(entries, i);
    }
  }

  /** Builds the record for a peripheral with address `id` from its
      property snapshot. */
  function Build(id: string, p: Properties): (d: BleDevice)
    ensures d.address == id
    ensures p.localName.Some? ==> d.localName == p.localName.value
    ensures p.localName.None? ==> d.localName == ""
    ensures p.rssi.Some? ==> d.rssi == p.rssi.value
    ensures p.rssi.None? ==> d.rssi == 0
    ensures d.manufacturerData == p.manufacturerData
    ensures d.services == p.services
    ensures d.serviceData.Keys == set e | e in p.serviceData :: e.uuid
    ensures |d.adv| == PayloadLength(p.serviceData)
  {
    BleDevice(
      id,
      p.localName.UnwrapOr(""),
      p.rssi.UnwrapOr(0),
      p.manufacturerData,
      p.services,
      ServiceDataMap(p.serviceData),
      Flatten(p.serviceData))
  }

  /** The payload of service-data entry `i` sits in the record's `adv` bytes
      right after the payloads of the entries before it. */
  lemma AdvHoldsEachPayload(id: string, p: Properties, i: int)
    requires 0 <= i < |p.serviceData|
    ensures var start := PayloadLength(p.serviceData[..i]);
            var adv := Build(id, p).adv;
            start + |p.serviceData[i].payload| <= |adv| &&
            adv[start .. start + |p.serviceData[i].payload|] == p.serviceData[i].payload
  {
    var es := p.serviceData;
    assert es == es[..i] + [es[i]] + es[i + 1..];
    FlattenAppend(es[..i] + [es[i]], es[i + 1..]);
    FlattenAppend(es[..i], [es[i]]);
    assert Flatten([es[i]]) == es[i].payload + Flatten([]);
  }

  /** The record (if any) one adapter event yields, as the loop body
      handles it once the stop channel was found empty. */
  function Handle(t: Tick): (r: Option<BleDevice>)
    ensures r.Some? <==> t.event.CarriesAdvertisement() && t.lookup.Found?
    ensures r.Some? ==> r.value.address == t.event.id && r.value == Build(t.event.id, t.lookup.props)
  {
    if t.event.CarriesAdvertisement() then
      match t.lookup
      case Found(props) => Some(Build(t.event.id, props))
      case _ => None
    else None
  }

  /** `Handle` as a sequence of zero or one records. */
  function Yield(t: Tick): (ds: seq<BleDevice>)
    ensures |ds| <= 1
  {
    match Handle(t)
    case Some(d) => [d]
    case None => []
  }

  /** Every record the given ticks would yield if none of them stopped the scan. */
  function Collect(ticks: seq<Tick>): (devices: seq<BleDevice>)
    ensures |devices| <= |ticks|
  {
    if |ticks| == 0 then []
    else
      Yield(ticks[0]) + Collect(ticks[1..])
  }

  lemma {:induction false} CollectAppend(a: seq<Tick>, b: seq<Tick>)
    ensures Collect(a + b) == Collect(a) + Collect(b)
    decreases |a|
  {
    if |a| == 0 {
      assert a + b == b;
    } else {
      assert (a + b)[1..] == a[1..] + b;
      CollectAppend(a[1..], b);
    }
  }

  /** Each collected record comes from an advertisement event whose lookup
      found the peripheral's properties. */
  lemma {:induction false} CollectedFromFoundLookups(ticks: seq<Tick>, d: BleDevice)
    requires d in Collect(ticks)
    ensures exists i :: 0 <= i < |ticks| && ticks[i].event.CarriesAdvertisement() &&
                        ticks[i].lookup.Found? && d == Build(ticks[i].event.id, ticks[i].lookup.props)
    decreases |ticks|
  {
    if Handle(ticks[0]).Some? && d == Handle(ticks[0]).value {
    } else {
      CollectedFromFoundLookups(ticks[1..], d);
      var i :| 0 <= i < |ticks[1..]| && ticks[1..][i].event.CarriesAdvertisement() &&
               ticks[1..][i].lookup.Found? && d == Build(ticks[1..][i].event.id, ticks[1..][i].lookup.props);
      assert ticks[i + 1] == ticks[1..][i];
    }
  }

  lemma CollectStep(ticks: seq<Tick>, i: nat)
    requires i < |ticks|
    ensures Collect(ticks[..i + 1]) == Collect(ticks[..i]) + Yield(ticks[i])
  {
    assert ticks[..i + 1] == ticks[..i] + [ticks[i]];
    CollectAppend(ticks[..i], [ticks[i]]);
    assert [ticks[i]][1..] == [];
  }

  /** Index of the first tick whose poll saw a stop request or an abandoned
      channel, or the number of ticks when there is none. */
  function CancelIndex(ticks: seq<Tick>): (k: nat)
    ensures k <= |ticks|
    ensures k < |ticks| ==> ticks[k].poll != Empty
  {
    if |ticks| == 0 || ticks[0].poll != Empty then 0 else 1 + CancelIndex(ticks[1..])
  }

  /** Every poll before the cancel index found the stop channel empty. */
  lemma {:induction false} EmptyBeforeCancel(ticks: seq<Tick>, i: int)
    requires 0 <= i < CancelIndex(ticks)
    ensures ticks[i].poll == Empty
    decreases i
  {
    if i > 0 {
      EmptyBeforeCancel(ticks[1..], i - 1);
    }
  }

  /** The records the scan loop emits: the stop channel is polled before
      each event; the first stop (or disconnected channel) ends the loop
      before that event is handled. */
  function Scan(ticks: seq<Tick>): (emitted: seq<BleDevice>)
    ensures emitted == Collect(ticks[..CancelIndex(ticks)])
  {
    if |ticks| == 0 || ticks[0].poll != Empty then []
    else
      assert ticks[..CancelIndex(ticks)][1..] == ticks[1..][..CancelIndex(ticks[1..])];
      Yield(ticks[0]) + Scan(ticks[1..])
  }

  /** Once a stop is observed at tick `k`, no later tick matters: the scan
      emits exactly what the ticks before `k` yield. */
  lemma {:induction false} NothingAfterCancel(ticks: seq<Tick>, k: nat, later: seq<Tick>)
    requires k < |ticks| && ticks[k].poll != Empty
    ensures CancelIndex(ticks) <= k
    ensures Scan(ticks[..k + 1] + later) == Scan(ticks)
    ensures Scan(ticks) == Scan(ticks[..k])
  {
    var c := CancelIndex(ticks);
    if k < c {
      EmptyBeforeCancel(ticks, k);
    }
    var extended := ticks[..k + 1] + later;
    CancelPrefix(ticks, extended, k + 1);
    CancelPrefix(ticks, ticks[..k], k);
    assert extended[..c] == ticks[..c];
    if c < k {
      assert ticks[..k][..c] == ticks[..c];
    } else {
      assert ticks[..k][..CancelIndex(ticks[..k])] == ticks[..c];
    }
  }

  /** Two tick sequences that agree on their first `n` ticks agree on the
      cancel index when it lies below `n`, and otherwise both reach `n`. */
  lemma {:induction false} CancelPrefix(a: seq<Tick>, b: seq<Tick>, n: nat)
    requires n <= |a| && n <= |b| && a[..n] == b[..n]
    ensures CancelIndex(a) < n ==> CancelIndex(b) == CancelIndex(a)
    ensures CancelIndex(a) >= n ==> CancelIndex(b) >= n
    decreases n
  {
    if n > 0 {
      assert a[0] == a[..n][0] && b[0] == b[..n][0];
      if a[0].poll == Empty {
        assert a[1..][..n - 1] == a[..n][1..];
        assert b[1..][..n - 1] == b[..n][1..];
        CancelPrefix(a[1..], b[1..], n - 1);
      }
    }
  }

  /** Before the first stop, a run over a prefix of the stream emits every
      record the prefix yields. */
  lemma ScanBeforeCancel(ticks: seq<Tick>, n: nat)
    requires n <= CancelIndex(ticks)
    ensures CancelIndex(ticks[..n]) == n
    ensures Scan(ticks[..n]) == Collect(ticks[..n])
  {
    CancelPrefix(ticks, ticks[..n], n);
    assert ticks[..n][..CancelIndex(ticks[..n])] == ticks[..n];
  }

  /** Records stream out in order: whatever a shorter run of the same
      adapter stream emitted is a prefix of what the longer run emits. */
  lemma ScanPrefix(ticks: seq<Tick>, n: nat)
    requires n <= |ticks|
    ensures |Scan(ticks[..n])| <= |Scan(ticks)|
    ensures Scan(ticks)[..|Scan(ticks[..n])|] == Scan(ticks[..n])
  {
    var c := CancelIndex(ticks);
    if c < n {
      CancelPrefix(ticks, ticks[..n], n);
      assert ticks[..n][..CancelIndex(ticks[..n])] == ticks[..c];
    } else {
      ScanBeforeCancel(ticks, n);
      assert ticks[..c] == ticks[..n] + ticks[n..c];
      CollectAppend(ticks[..n], ticks[n..c]);
    }
  }

  /** A stop that arrives after the first event: the scan emits the record
      of that first event (if it yields one) and nothing else. */
  lemma CancelAfterFirstEvent(ticks: seq<Tick>)
    requires |ticks| >= 2 && ticks[0].poll == Empty && ticks[1].poll != Empty
    ensures Scan(ticks) == Yield(ticks[0])
  {
    assert CancelIndex(ticks[1..]) == 0;
    assert ticks[..1][1..] == [];
  }

  /** The loop as written, with the `listener_active` flag that makes sure
      the stop listener is removed exactly once, whether the loop breaks on a
      stop or the adapter stream ends. */
  method RunScan(ticks: seq<Tick>) returns (emitted: seq<BleDevice>, ending: Ending, unlistens: nat)
    ensures emitted == Scan(ticks)
    ensures ending == Cancelled <==> CancelIndex(ticks) < |ticks|
    ensures unlistens == 1
  {
    emitted := [];
    ending := StreamEnded;
    unlistens := 0;
    var listenerActive := true;
    var i := 0;
    while i < |ticks|
      invariant i <= CancelIndex(ticks)
      invariant emitted == Collect(ticks[..i])
      invariant listenerActive && unlistens == 0
    {
      if ticks[i].poll != Empty {
        if i < CancelIndex(ticks) {
          EmptyBeforeCancel(ticks, i);
        }
        unlistens := unlistens + 1;
        listenerActive := false;
        ending := Cancelled;
        break;
      }
      CollectStep(ticks, i);
      emitted := emitted + Yield(ticks[i]);
      i := i + 1;
    }
    if listenerActive {
      unlistens := unlistens + 1;
    }
  }

  /** Outcome of each fallible setup step of the scan command, in order. */
  datatype ScanSetup<A> = ScanSetup(
    manager: Result<(), string>,
    adapters: Result<seq<A>, string>,
    subscribe: Result<(), string>,
    startScan: Result<(), string>)

  /** The scan command: the setup steps fail fast with their messages
      before the stop listener is registered; once it is, the loop runs and
      the command succeeds. */
  method StartBleAdvertisementScan<A>(setup: ScanSetup<A>, ticks: seq<Tick>)
    returns (result: Result<(), string>, emitted: seq<BleDevice>, unlistens: nat)
    ensures result.Ok? <==> setup.manager.Ok? && GetCentral(setup.adapters).Ok? &&
                            setup.subscribe.Ok? && setup.startScan.Ok?
    ensures setup.manager.Err? ==> result == Err("failed to create bluetooth manager: " + setup.manager.error)
    ensures setup.manager.Ok? && setup.adapters == Ok([]) ==> result == Err("no bluetooth adapter found")
    ensures setup.manager.Ok? && GetCentral(setup.adapters).Err? ==> result == Err(GetCentral(setup.adapters).error)
    ensures setup.manager.Ok? && GetCentral(setup.adapters).Ok? && setup.subscribe.Err? ==>
              result == Err("failed to subscribe bluetooth events: " + setup.subscribe.error)
    ensures setup.manager.Ok? && GetCentral(setup.adapters).Ok? && setup.subscribe.Ok? && setup.startScan.Err? ==>
              result == Err("failed to start bluetooth scan: " + setup.startScan.error)
    ensures result.Ok? ==> emitted == Scan(ticks) && unlistens == 1
    ensures result.Err? ==> emitted == [] && unlistens == 0
  {
    emitted := [];
    unlistens := 0;
    if setup.manager.Err? {
      return Err("failed to create bluetooth manager: " + setup.manager.error), emitted, unlistens;
    }
    var central := GetCentral(setup.adapters);
    if central.Err? {
      return Err(central.error), emitted, unlistens;
    }
    if setup.subscribe.Err? {
      return Err("failed to subscribe bluetooth events: " + setup.subscribe.error), emitted, unlistens;
    }
    if setup.startScan.Err? {
      return Err("failed to start bluetooth scan: " + setup.startScan.error), emitted, unlistens;
    }
    var ending;
    emitted, ending, unlistens := RunScan(ticks);
    result := Ok(());
  }
}
