/**
  The table of USB devices and mark-sweep discovery (src/usb.c), on top of the daemon: every entry
  of the mux device table refers to an entry of the USB table.
 */
module Discovery {
  import opened Words
  import opened Transport
  import opened Daemon
  import opened DaemonInv
  import opened DaemonSteps
  import opened DaemonRuns
  import opened Teardown

  /** A `usb_device`; `ptr` is its identity, which the mux device refers to. */
  datatype UsbDev = UsbDev(ptr: nat, bus: byte, address: byte, alive: bool)

  /** What becomes of a device that is not in the table: passed over, or opened and asked for its mode. */
  datatype Setup = Rejected | Opened(asked: bool)

  /** A device as the bus enumerates it. */
  datatype Found = Found(bus: byte, address: byte, setup: Setup)

  predicate At(u: UsbDev, bus: byte, address: byte) {
    u.bus == bus && u.address == address
  }

  // ---------------------------------------------------------------- the table

  /** `find_device`: the first entry for this bus and address, or -1. */
  function Find(list: seq<UsbDev>, bus: byte, address: byte): (i: int)
    ensures -1 <= i < |list|
    ensures i >= 0 ==> At(list[i], bus, address)
    ensures i < 0 ==> forall j :: 0 <= j < |list| ==> !At(list[j], bus, address)
  {
    if list == [] then -1
    else if At(list[0], bus, address) then 0
    else
      var i := Find(list[1..], bus, address);
      if i < 0 then
        assert forall j :: 1 <= j < |list| ==> list[j] == list[1..][j - 1];
        -1
      else i + 1
  }

  /** `usb_device_add` succeeds. */
  predicate Added(list: seq<UsbDev>, f: Found) {
    Find(list, f.bus, f.address) >= 0 || f.setup == Opened(true)
  }

  /** The table after `usb_device_add`; `ptr` is the identity of the new entry, if one is made. */
  function Add(list: seq<UsbDev>, f: Found, ptr: nat): seq<UsbDev> {
    var i := Find(list, f.bus, f.address);
    if i >= 0 then list[i := list[i].(alive := true)]
    else if f.setup.Rejected? then list
    else list + [UsbDev(ptr, f.bus, f.address, f.setup.asked)]
  }

  function AddAll(list: seq<UsbDev>, fs: seq<Found>, ptr: nat): seq<UsbDev> {
    if fs == [] then list
    else var n := |fs| - 1; Add(AddAll(list, fs[..n], ptr), fs[n], ptr + n)
  }

  /** The number `usb_discover` returns. */
  function AddedCount(list: seq<UsbDev>, fs: seq<Found>, ptr: nat): nat {
    if fs == [] then 0
    else
      var n := |fs| - 1;
      AddedCount(list, fs[..n], ptr) + if Added(AddAll(list, fs[..n], ptr), fs[n]) then 1 else 0
  }

  function Unmarked(list: seq<UsbDev>): (r: seq<UsbDev>)
    ensures |r| == |list| && forall i :: 0 <= i < |r| ==> r[i] == list[i].(alive := false)
  {
    seq(|list|, i requires 0 <= i < |list| => list[i].(alive := false))
  }

  /** What `reap_dead_devices` leaves. */
  function Swept(list: seq<UsbDev>): seq<UsbDev> {
    if list == [] then []
    else var n := |list| - 1; Swept(list[..n]) + if list[n].alive then [list[n]] else []
  }

  function Discovered(list: seq<UsbDev>, fs: seq<Found>, ptr: nat): seq<UsbDev> {
    Swept(AddAll(Unmarked(list), fs, ptr))
  }

  // ---------------------------------------------------------------- its effect on the daemon

  ghost predicate Carries(d: State, i: nat, usb: nat) {
    i in d.devices && d.devices[i].usb == usb
  }

  /** `device_remove` of the mux device on this USB device, if there is one. */
  ghost function Drop(d: State, usb: nat, w: World): State {
    if i :| Carries(d, i, usb) then Detach(d, i, w) else d
  }

  /** The removals of `reap_dead_devices`. */
  ghost function DropDead(d: State, list: seq<UsbDev>, w: World): State {
    if list == [] then d
    else
      var n := |list| - 1;
      var d' := DropDead(d, list[..n], w);
      if list[n].alive then d' else Drop(d', list[n].ptr, w)
  }

  // ---------------------------------------------------------------- one entry per bus and address

  ghost predicate Unique(list: seq<UsbDev>) {
    forall i, j :: 0 <= i < j < |list| ==> !At(list[i], list[j].bus, list[j].address) && list[i].ptr != list[j].ptr
  }

  ghost predicate Below(list: seq<UsbDev>, ptr: nat) {
    forall i :: 0 <= i < |list| ==> list[i].ptr < ptr
  }

  ghost predicate Listed(list: seq<UsbDev>, bus: byte, address: byte) {
    exists i :: 0 <= i < |list| && At(list[i], bus, address)
  }

  ghost predicate Live(list: seq<UsbDev>, bus: byte, address: byte) {
    exists i :: 0 <= i < |list| && At(list[i], bus, address) && list[i].alive
  }

  lemma AddUnique(list: seq<UsbDev>, f: Found, ptr: nat)
    requires Unique(list) && Below(list, ptr)
    ensures Unique(Add(list, f, ptr)) && Below(Add(list, f, ptr), ptr + 1)
  {
  }

  lemma {:induction false} AddAllUnique(list: seq<UsbDev>, fs: seq<Found>, ptr: nat)
    requires Unique(list) && Below(list, ptr)
    ensures Unique(AddAll(list, fs, ptr)) && Below(AddAll(list, fs, ptr), ptr + |fs|)
  {
    hide Unique, Below, Add;
    if fs != [] {
      var n := |fs| - 1;
      AddAllUnique(list, fs[..n], ptr);
      AddUnique(AddAll(list, fs[..n], ptr), fs[n], ptr + n);
    }
  }

  /** What one `usb_device_add` does to the entry for any bus and address. */
  lemma AddStatus(list: seq<UsbDev>, f: Found, ptr: nat, bus: byte, address: byte)
    requires Unique(list)
    ensures var list' := Add(list, f, ptr);
            if f.bus != bus || f.address != address then
              (Listed(list', bus, address) <==> Listed(list, bus, address)) &&
              (Live(list', bus, address) <==> Live(list, bus, address))
            else
              (Listed(list', bus, address) <==> Listed(list, bus, address) || f.setup.Opened?) &&
              (Live(list', bus, address) <==> Listed(list, bus, address) || f.setup == Opened(true))
  {
    AddListed(list, f, ptr, bus, address);
    AddLive(list, f, ptr, bus, address);
  }

  lemma AddListed(list: seq<UsbDev>, f: Found, ptr: nat, bus: byte, address: byte)
    ensures Listed(Add(list, f, ptr), bus, address) <==>
            Listed(list, bus, address) || (f.bus == bus && f.address == address && f.setup.Opened?)
  {
    var list', k := Add(list, f, ptr), Find(list, f.bus, f.address);
    if Listed(list, bus, address) {
      var i :| 0 <= i < |list| && At(list[i], bus, address);
      assert At(list'[i], bus, address);
    }
    if k < 0 && f.bus == bus && f.address == address && f.setup.Opened? {
      assert At(list'[|list|], bus, address);
    }
    if Listed(list', bus, address) {
      var i :| 0 <= i < |list'| && At(list'[i], bus, address);
      assert i < |list| ==> At(list[i], bus, address);
    }
  }

  lemma AddLive(list: seq<UsbDev>, f: Found, ptr: nat, bus: byte, address: byte)
    requires Unique(list)
    ensures Live(Add(list, f, ptr), bus, address) <==>
            if f.bus == bus && f.address == address then Listed(list, bus, address) || f.setup == Opened(true)
            else Live(list, bus, address)
  {
    var list', k := Add(list, f, ptr), Find(list, f.bus, f.address);
    if k >= 0 && f.bus == bus && f.address == address {
      assert At(list'[k], bus, address) && list'[k].alive && At(list[k], bus, address);
    } else if k < 0 && f.bus == bus && f.address == address && f.setup == Opened(true) {
      assert At(list'[|list|], bus, address) && list'[|list|].alive;
    } else if f.bus != bus || f.address != address {
      if Live(list, bus, address) {
        var i :| 0 <= i < |list| && At(list[i], bus, address) && list[i].alive;
        assert list'[i] == list[i];
      }
      if Live(list', bus, address) {
        var i :| 0 <= i < |list'| && At(list'[i], bus, address) && list'[i].alive;
        assert i < |list| && list[i] == list'[i];
      }
    } else {
      assert forall i :: 0 <= i < |list'| ==> !(At(list'[i], bus, address) && list'[i].alive);
    }
  }

  ghost predicate Is(f: Found, bus: byte, address: byte) {
    f.bus == bus && f.address == address
  }

  ghost predicate Opens(fs: seq<Found>, bus: byte, address: byte) {
    exists i :: 0 <= i < |fs| && Is(fs[i], bus, address) && fs[i].setup.Opened?
  }

  /** The bus shows the device, and it was in the table or is set up without error. */
  ghost predicate Earned(known: bool, fs: seq<Found>, bus: byte, address: byte) {
    exists i :: 0 <= i < |fs| && Is(fs[i], bus, address)
             && (known || fs[i].setup == Opened(true) || Opens(fs[..i], bus, address))
  }

  lemma OpensSnoc(fs: seq<Found>, bus: byte, address: byte)
    requires fs != []
    ensures var n := |fs| - 1;
            Opens(fs, bus, address) <==>
                Opens(fs[..n], bus, address) || (Is(fs[n], bus, address) && fs[n].setup.Opened?)
  {
    var n := |fs| - 1;
    if Opens(fs[..n], bus, address) {
      var i :| 0 <= i < n && Is(fs[..n][i], bus, address) && fs[..n][i].setup.Opened?;
      assert Is(fs[i], bus, address);
    }
    if Opens(fs, bus, address) {
      var i :| 0 <= i < |fs| && Is(fs[i], bus, address) && fs[i].setup.Opened?;
      assert i < n ==> Is(fs[..n][i], bus, address);
    }
  }

  lemma EarnedSnoc(known: bool, fs: seq<Found>, bus: byte, address: byte)
    requires fs != []
    ensures var n := |fs| - 1;
            Earned(known, fs, bus, address) <==>
              Earned(known, fs[..n], bus, address)
              || (Is(fs[n], bus, address) && (known || fs[n].setup == Opened(true) || Opens(fs[..n], bus, address)))
  {
    hide Opens;
    var n := |fs| - 1;
    if Earned(known, fs[..n], bus, address) {
      var i :| 0 <= i < n && Is(fs[..n][i], bus, address)
            && (known || fs[..n][i].setup == Opened(true) || Opens(fs[..n][..i], bus, address));
      assert Is(fs[i], bus, address) && fs[..n][..i] == fs[..i];
    }
    if Earned(known, fs, bus, address) {
      var i :| 0 <= i < |fs| && Is(fs[i], bus, address)
            && (known || fs[i].setup == Opened(true) || Opens(fs[..i], bus, address));
      if i < n {
        assert Is(fs[..n][i], bus, address) && fs[..n][..i] == fs[..i];
      }
    }
  }

  lemma {:induction false} AddAllStatus(list: seq<UsbDev>, fs: seq<Found>, ptr: nat, bus: byte, address: byte)
    requires Unique(list) && Below(list, ptr) && !Live(list, bus, address)
    ensures var list' := AddAll(list, fs, ptr);
            && (Listed(list', bus, address) <==> Listed(list, bus, address) || Opens(fs, bus, address))
            && (Live(list', bus, address) <==> Earned(Listed(list, bus, address), fs, bus, address))
  {
    hide Unique, Below, Listed, Live, Opens, Earned, Add;
    if fs == [] {
      NothingFound(Listed(list, bus, address), bus, address);
    } else {
      var n := |fs| - 1;
      AddAllStatus(list, fs[..n], ptr, bus, address);
      AddAllUnique(list, fs[..n], ptr);
      AddStatus(AddAll(list, fs[..n], ptr), fs[n], ptr + n, bus, address);
      LiveListed(AddAll(list, fs[..n], ptr), bus, address);
      OpensSnoc(fs, bus, address);
      EarnedSnoc(Listed(list, bus, address), fs, bus, address);
    }
  }

  lemma LiveListed(list: seq<UsbDev>, bus: byte, address: byte)
    ensures Live(list, bus, address) ==> Listed(list, bus, address)
  {
  }

  lemma NothingFound(known: bool, bus: byte, address: byte)
    ensures !Opens([], bus, address) && !Earned(known, [], bus, address)
  {
  }

  lemma UnmarkedStatus(list: seq<UsbDev>, bus: byte, address: byte)
    ensures Listed(Unmarked(list), bus, address) <==> Listed(list, bus, address)
    ensures !Live(Unmarked(list), bus, address)
  {
    if Listed(list, bus, address) {
      var i :| 0 <= i < |list| && At(list[i], bus, address);
      assert At(Unmarked(list)[i], bus, address);
    }
    if Listed(Unmarked(list), bus, address) {
      var i :| 0 <= i < |list| && At(Unmarked(list)[i], bus, address);
      assert At(list[i], bus, address);
    }
  }

  /** Sweeping keeps exactly the live entries, in order. */
  lemma {:induction false} SweptMembers(list: seq<UsbDev>, u: UsbDev)
    ensures u in Swept(list) <==> u in list && u.alive
  {
    if list != [] {
      var n := |list| - 1;
      SweptMembers(list[..n], u);
      assert list == list[..n] + [list[n]];
    }
  }

  lemma {:induction false} SweptUnique(list: seq<UsbDev>, ptr: nat)
    requires Unique(list) && Below(list, ptr)
    ensures Unique(Swept(list)) && Below(Swept(list), ptr)
  {
    if list != [] {
      var n := |list| - 1;
      var init := list[..n];
      assert forall i :: 0 <= i < n ==> init[i] == list[i];
      SweptUnique(init, ptr);
      forall i | 0 <= i < |Swept(init)|
        ensures !At(Swept(init)[i], list[n].bus, list[n].address) && Swept(init)[i].ptr != list[n].ptr
      {
        SweptMembers(init, Swept(init)[i]);
        var j :| 0 <= j < n && init[j] == Swept(init)[i];
        assert !At(list[j], list[n].bus, list[n].address);
      }
    }
  }

  lemma SweptStatus(list: seq<UsbDev>, bus: byte, address: byte)
    ensures Listed(Swept(list), bus, address) <==> Live(list, bus, address)
  {
    if Live(list, bus, address) {
      var i :| 0 <= i < |list| && At(list[i], bus, address) && list[i].alive;
      SweptMembers(list, list[i]);
      var j :| 0 <= j < |Swept(list)| && Swept(list)[j] == list[i];
      assert At(Swept(list)[j], bus, address);
    }
    if Listed(Swept(list), bus, address) {
      var i :| 0 <= i < |Swept(list)| && At(Swept(list)[i], bus, address);
      SweptMembers(list, Swept(list)[i]);
      var j :| 0 <= j < |list| && list[j] == Swept(list)[i];
      assert At(list[j], bus, address);
    }
  }

  /**
    Mark and sweep: after a successful scan there is one entry per bus and address, and it is there
    exactly if the bus shows the device and it was already known or was set up without error.
   */
  lemma DiscoverExact(list: seq<UsbDev>, fs: seq<Found>, ptr: nat, bus: byte, address: byte)
    requires Unique(list) && Below(list, ptr)
    ensures Unique(Discovered(list, fs, ptr)) && Below(Discovered(list, fs, ptr), ptr + |fs|)
    ensures Listed(Discovered(list, fs, ptr), bus, address) <==> Earned(Listed(list, bus, address), fs, bus, address)
  {
    UnmarkedUnique(list, ptr);
    UnmarkedStatus(list, bus, address);
    hide Unique, Below, Listed, Live, Opens, Earned;
    AddAllUnique(Unmarked(list), fs, ptr);
    AddAllStatus(Unmarked(list), fs, ptr, bus, address);
    SweptStatus(AddAll(Unmarked(list), fs, ptr), bus, address);
    SweptUnique(AddAll(Unmarked(list), fs, ptr), ptr + |fs|);
  }

  lemma UnmarkedUnique(list: seq<UsbDev>, ptr: nat)
    requires Unique(list) && Below(list, ptr)
    ensures Unique(Unmarked(list)) && Below(Unmarked(list), ptr)
  {
  }

  ghost predicate Distinct(fs: seq<Found>) {
    forall i, j :: 0 <= i < j < |fs| ==> !Is(fs[i], fs[j].bus, fs[j].address)
  }

  /** When the bus shows every device once, `usb_discover` returns the size of the new table. */
  lemma DiscoverCount(list: seq<UsbDev>, fs: seq<Found>, ptr: nat)
    requires Unique(list) && Below(list, ptr) && Distinct(fs)
    ensures AddedCount(Unmarked(list), fs, ptr) == |Discovered(list, fs, ptr)|
  {
    UnmarkedUnique(list, ptr);
    SweptNone(Unmarked(list));
    CountLive(Unmarked(list), fs, ptr);
  }

  lemma {:induction false} SweptNone(list: seq<UsbDev>)
    requires forall i :: 0 <= i < |list| ==> !list[i].alive
    ensures Swept(list) == []
  {
    if list != [] {
      SweptNone(list[..|list| - 1]);
    }
  }

  lemma {:induction false} CountLive(list: seq<UsbDev>, fs: seq<Found>, ptr: nat)
    requires Unique(list) && Below(list, ptr) && Distinct(fs) && Swept(list) == []
    ensures AddedCount(list, fs, ptr) == |Swept(AddAll(list, fs, ptr))|
  {
    if fs != [] {
      var n := |fs| - 1;
      var init, f, now := fs[..n], fs[n], AddAll(list, fs[..n], ptr);
      assert forall i :: 0 <= i < n ==> init[i] == fs[i];
      CountLive(list, init, ptr);
      AddAllUnique(list, init, ptr);
      NotYetLive(list, fs, ptr);
      AddOneLive(now, f, ptr + n);
    }
  }

  /** A device the scan has not reached yet is not live. */
  lemma NotYetLive(list: seq<UsbDev>, fs: seq<Found>, ptr: nat)
    requires Unique(list) && Below(list, ptr) && fs != [] && Distinct(fs) && Swept(list) == []
    ensures var n := |fs| - 1; !Live(AddAll(list, fs[..n], ptr), fs[n].bus, fs[n].address)
  {
    var n := |fs| - 1;
    var bus, address := fs[n].bus, fs[n].address;
    hide Unique, Below;
    SweptStatus(list, bus, address);
    AddAllStatus(list, fs[..n], ptr, bus, address);
    assert forall i :: 0 <= i < n ==> !Is(fs[..n][i], bus, address);
  }

  lemma AddOneLive(list: seq<UsbDev>, f: Found, ptr: nat)
    requires !Live(list, f.bus, f.address)
    ensures |Swept(Add(list, f, ptr))| == |Swept(list)| + if Added(list, f) then 1 else 0
  {
    var k := Find(list, f.bus, f.address);
    if k >= 0 {
      assert !list[k].alive by {
        assert At(list[k], f.bus, f.address);
      }
      SweptRevived(list, k);
    } else if f.setup.Opened? {
      assert Add(list, f, ptr)[..|list|] == list;
    }
  }

  lemma {:induction false} SweptRevived(list: seq<UsbDev>, k: nat)
    requires k < |list| && !list[k].alive
    ensures |Swept(list[k := list[k].(alive := true)])| == |Swept(list)| + 1
  {
    var n := |list| - 1;
    var list' := list[k := list[k].(alive := true)];
    if k == n {
      assert list'[..n] == list[..n];
    } else {
      SweptRevived(list[..n], k);
      assert list'[..n] == list[..n][k := list[k].(alive := true)];
    }
  }

  // ---------------------------------------------------------------- the two tables

  ghost predicate HasPtr(list: seq<UsbDev>, ptr: nat) {
    exists i :: 0 <= i < |list| && list[i].ptr == ptr
  }

  /** Every mux device refers to an entry of the USB table. */
  ghost predicate Refers(list: seq<UsbDev>, d: State) {
    forall i :: i in d.devices ==> HasPtr(list, d.devices[i].usb)
  }

  /** `d'` has no device that `d` does not have on the same USB device. */
  ghost predicate Thinned(d: State, d': State) {
    forall i :: i in d'.devices ==> i in d.devices && d'.devices[i].usb == d.devices[i].usb
  }

  /** Detaching takes exactly that device out of the table. */
  lemma DetachDevices(d: State, id: nat, w: World)
    ensures Detach(d, id, w).devices == d.devices - {id}
  {
  }

  ghost predicate Carried(d: State, usb: nat) {
    exists i :: Carries(d, i, usb)
  }

  lemma {:induction false} DropDevices(d: State, usb: nat, w: World)
    requires Inv(d)
    ensures Inv(Drop(d, usb, w)) && !Carried(Drop(d, usb, w), usb)
    ensures Thinned(d, Drop(d, usb, w))
    ensures forall i :: i in d.devices && d.devices[i].usb != usb ==> i in Drop(d, usb, w).devices
  {
    hide InvBut, Detach;
    if Carried(d, usb) {
      var i :| Carries(d, i, usb) && Drop(d, usb, w) == Detach(d, i, w);
      DetachDevices(d, i, w);
      DetachKeeps(d, i, w);
      OnlyOne(d, i);
      var d' := Detach(d, i, w);
      forall j ensures !Carries(d', j, usb) {
        assert Carries(d', j, usb) ==> Carries(d, j, usb);
      }
    }
  }

  lemma OnlyOne(d: State, i: nat)
    requires Inv(d) && i in d.devices
    ensures forall j :: Carries(d, j, d.devices[i].usb) ==> j == i
  {
    assert DevicesOk(d.devices, d.nextDevice);
  }

  /** Reaping removes the mux devices of the dead entries and no others. */
  lemma {:induction false} DropDeadDevices(d: State, list: seq<UsbDev>, w: World)
    requires Inv(d)
    ensures Inv(DropDead(d, list, w)) && Thinned(d, DropDead(d, list, w))
    ensures forall j :: 0 <= j < |list| && !list[j].alive ==> !Carried(DropDead(d, list, w), list[j].ptr)
    ensures forall i :: i in d.devices && (forall j :: 0 <= j < |list| && !list[j].alive ==>
        d.devices[i].usb != list[j].ptr)
              ==> i in DropDead(d, list, w).devices
  {
    hide InvBut, Drop;
    if list != [] {
      var n := |list| - 1;
      var init := list[..n];
      assert forall j :: 0 <= j < n ==> init[j] == list[j];
      DropDeadDevices(d, init, w);
      if !list[n].alive {
        var d1 := DropDead(d, init, w);
        DropDevices(d1, list[n].ptr, w);
        var d2 := Drop(d1, list[n].ptr, w);
        forall j | 0 <= j < |list| && !list[j].alive ensures !Carried(d2, list[j].ptr) {
          if j < n {
            assert !Carried(d1, init[j].ptr);
            assert forall i :: Carries(d2, i, list[j].ptr) ==> Carries(d1, i, list[j].ptr);
          }
        }
        forall i | i in d.devices && (forall j :: 0 <= j < |list| && !list[j].alive ==> d.devices[i].usb != list[j].ptr)
          ensures i in d2.devices
        {
          assert i in d1.devices && d1.devices[i].usb == d.devices[i].usb != list[n].ptr;
        }
      }
    }
  }

  lemma {:induction false} ReapRefers(d: State, list: seq<UsbDev>, w: World)
    requires Inv(d) && Refers(list, d)
    ensures Inv(DropDead(d, list, w)) && Refers(Swept(list), DropDead(d, list, w))
  {
    hide InvBut;
    DropDeadDevices(d, list, w);
    var d' := DropDead(d, list, w);
    forall i | i in d'.devices ensures HasPtr(Swept(list), d'.devices[i].usb) {
      assert HasPtr(list, d.devices[i].usb);
      var j :| 0 <= j < |list| && list[j].ptr == d.devices[i].usb;
      assert Carries(d', i, list[j].ptr);
      SweptMembers(list, list[j]);
      var k :| 0 <= k < |Swept(list)| && Swept(list)[k] == list[j];
    }
  }

  /** `list'` still has every entry of `list`. */
  ghost predicate Extends(list: seq<UsbDev>, list': seq<UsbDev>) {
    |list| <= |list'| && forall i :: 0 <= i < |list| ==> list'[i].ptr == list[i].ptr
  }

  lemma ExtendsRefers(list: seq<UsbDev>, list': seq<UsbDev>, d: State)
    requires Extends(list, list') && Refers(list, d)
    ensures Refers(list', d)
  {
    forall i | i in d.devices ensures HasPtr(list', d.devices[i].usb) {
      assert HasPtr(list, d.devices[i].usb);
      var j :| 0 <= j < |list| && list[j].ptr == d.devices[i].usb;
      assert list'[j].ptr == d.devices[i].usb;
    }
  }

  lemma {:induction false} AddAllExtends(list: seq<UsbDev>, fs: seq<Found>, ptr: nat)
    ensures Extends(list, AddAll(list, fs, ptr))
  {
    if fs != [] {
      AddAllExtends(list, fs[..|fs| - 1], ptr);
    }
  }

  // ---------------------------------------------------------------- runs

  /** The USB table and the daemon; `next` is a fresh identity. */
  datatype Edge = Edge(list: seq<UsbDev>, next: nat, d: State)

  /** `Inner` is any event of the daemon that does not come from the USB side. */
  datatype UsbEvent =
    | Scan(fs: seq<Found>, w: World)
    | Arrived(f: Found)
    | Left(bus: byte, address: byte, w: World)
    | TransferFailed(ptr: nat)
    | Reap(w: World)
    | SerialRead(ptr: nat, sent: bool, reading: bool, w: World)
    | Inner(e: Event)

  /** `usb_disconnect`. */
  function Without(list: seq<UsbDev>, ptr: nat): seq<UsbDev> {
    if list == [] then []
    else var n := |list| - 1; Without(list[..n], ptr) + if list[n].ptr == ptr then [] else [list[n]]
  }

  /** A failed transfer marks its device. */
  function Condemned(list: seq<UsbDev>, ptr: nat): (r: seq<UsbDev>)
    ensures |r| == |list|
    ensures forall i :: 0 <= i < |r| ==> r[i] == if list[i].ptr == ptr then list[i].(alive := false) else list[i]
  {
    seq(|list|, i requires 0 <= i < |list| => if list[i].ptr == ptr then list[i].(alive := false) else list[i])
  }

  /** `get_serial_callback` once the serial number is there. */
  ghost function Started(g: Edge, ptr: nat, sent: bool, reading: bool, w: World): Edge {
    var d := Attach(g.d, ptr, sent);
    if !sent then Edge(Without(g.list, ptr), g.next, d)
    else if !reading then Edge(Without(g.list, ptr), g.next, Drop(d, ptr, w))
    else g.(d := d)
  }

  ghost function UsbStep(g: Edge, e: UsbEvent): Edge {
    match e
    case Scan(fs, w) =>
      var list := AddAll(Unmarked(g.list), fs, g.next);
      Edge(Swept(list), g.next + |fs|, DropDead(g.d, list, w))
    case Arrived(f) => Edge(Add(g.list, f, g.next), g.next + 1, g.d)
    case Left(bus, address, w) =>
      var i := Find(g.list, bus, address);
      if i < 0 then g
      else Edge(g.list[i := g.list[i].(alive := false)], g.next, Drop(g.d, g.list[i].ptr, w))
    case TransferFailed(ptr) => g.(list := Condemned(g.list, ptr))
    case Reap(w) => Edge(Swept(g.list), g.next, DropDead(g.d, g.list, w))
    case SerialRead(ptr, sent, reading, w) =>
      if HasPtr(g.list, ptr) && !Carried(g.d, ptr) then Started(g, ptr, sent, reading, w) else g
    case Inner(e) => if e.DeviceArrives? || e.DeviceLeaves? then g else g.(d := Step(g.d, e))
  }

  ghost predicate EdgeInv(g: Edge) {
    Unique(g.list) && Below(g.list, g.next) && Inv(g.d) && Refers(g.list, g.d)
  }

  lemma {:induction false} WithoutIn(list: seq<UsbDev>, ptr: nat, u: UsbDev)
    ensures u in Without(list, ptr) <==> u in list && u.ptr != ptr
  {
    if list != [] {
      var n := |list| - 1;
      assert list == list[..n] + [list[n]];
      WithoutIn(list[..n], ptr, u);
    }
  }

  lemma Joins(list: seq<UsbDev>, u: UsbDev, next: nat)
    requires Unique(list) && Below(list, next) && u.ptr < next
    requires forall v :: v in list ==> !At(v, u.bus, u.address) && v.ptr != u.ptr
    ensures Unique(list + [u]) && Below(list + [u], next)
  {
  }

  lemma {:induction false} WithoutKeeps(list: seq<UsbDev>, ptr: nat, next: nat)
    requires Unique(list) && Below(list, next)
    ensures Unique(Without(list, ptr)) && Below(Without(list, ptr), next)
    ensures forall u :: u in Without(list, ptr) <==> u in list && u.ptr != ptr
  {
    forall u: UsbDev ensures u in Without(list, ptr) <==> u in list && u.ptr != ptr {
      WithoutIn(list, ptr, u);
    }
    if list != [] {
      var n := |list| - 1;
      var init := list[..n];
      WithoutKeeps(init, ptr, next);
      if list[n].ptr != ptr {
        forall v | v in Without(init, ptr) ensures !At(v, list[n].bus, list[n].address) && v.ptr != list[n].ptr {
          var j :| 0 <= j < n && init[j] == v;
          assert list[j] == v;
        }
        Joins(Without(init, ptr), list[n], next);
      }
    }
  }

  lemma WithoutRefers(list: seq<UsbDev>, ptr: nat, next: nat, d: State)
    requires Unique(list) && Below(list, next) && Refers(list, d) && !Carried(d, ptr)
    ensures Refers(Without(list, ptr), d)
  {
    WithoutKeeps(list, ptr, next);
    forall i | i in d.devices ensures HasPtr(Without(list, ptr), d.devices[i].usb) {
      assert HasPtr(list, d.devices[i].usb);
      var j :| 0 <= j < |list| && list[j].ptr == d.devices[i].usb;
      assert Carries(d, i, list[j].ptr);
      assert list[j] in Without(list, ptr);
    }
  }

  lemma FewerRefers(list: seq<UsbDev>, d: State, d': State)
    requires Refers(list, d) && Thinned(d, d')
    ensures Refers(list, d')
  {
  }

  lemma TearDownKeepsDevices(d: State, ks: set<nat>, w: World, dead: bool)
    ensures TearDown(d, ks, w, dead).devices == d.devices
  {
  }

  lemma CloseKeepsDevices(d: State, c: nat, w: World)
    ensures Close(d, c, w).devices == d.devices
  {
  }

  lemma SegmentDevices(d: State, k: nat, c: nat, s: Segment, ok: bool, now: nat, w: World)
    requires k in d.conns && c in d.clients && d.conns[k].tcp.txWin < U16 * 256
    ensures SegmentTo(d, k, c, s, ok, now, w).devices == d.devices
  {
    hide TearDown, Logged, Notified, SetEvents;
    var cl, tcp := d.clients[c], d.conns[k].tcp;
    var r := SegmentIn(tcp, s, ok, now);
    var cl' := cl.(fromDevice := cl.fromDevice + Accepted(tcp, s));
    TearDownKeepsDevices(Put(d, k, r.c, c, cl', r.out), {k}, w, false);
  }

  lemma TurnDevices(d: State, k: nat, c: nat, ev: Mask, wrote: int, got: Got, ok: bool, now: nat, w: World)
    requires k in d.conns && c in d.clients && d.conns[k].tcp.txWin < U16 * 256
    ensures TurnOf(d, k, c, ev, wrote, got, ok, now, w).devices == d.devices
  {
    hide TearDown, ClientTurn, Logged, SetEvents;
    var cl, tcp := d.clients[c], d.conns[k].tcp;
    var t := ClientTurn(tcp, ev, wrote, got, ok, now);
    var gone := tcp.ib[..Min(t.written, |tcp.ib|)];
    var cl' := cl.(sent := cl.sent + gone, delivered := cl.delivered + gone, forwarded := cl.forwarded + t.taken);
    TearDownKeepsDevices(Put(d, k, t.c, c, cl', t.out), {k}, w, false);
  }

  lemma ConnectThins(d: State, c: nat, tag: u32, dev: nat, port: u16, synOk: bool, now: nat)
    requires c in d.clients
    ensures Thinned(d, Connect(d, c, tag, dev, port, synOk, now))
  {
    hide Queue, Logged, Opening, AfterSend, On, PortsOn;
  }

  lemma ObeyThins(d: State, c: nat, cmd: Command)
    requires c in d.clients
    ensures Thinned(d, Obey(d, c, cmd))
  {
    hide Queue, QueueAttached, Connect;
    if cmd.op.ConnectOp? {
      var cl := if cmd.plist then d.clients[c].(version := 1) else d.clients[c];
      var op := cmd.op;
      ConnectThins(d.(clients := d.clients[c := cl]), c, cmd.tag, op.dev, op.port, op.synOk, op.now);
    }
  }

  lemma HandleThins(d: State, c: nat, cmd: Command, w: World)
    requires c in d.clients
    ensures Thinned(d, Handle(d, c, cmd, w))
  {
    hide Close, Queue, Obey;
    var cl := d.clients[c];
    ObeyThins(d, c, cmd);
    CloseKeepsDevices(d.(clients := d.clients[c := Queue(d.render, cl, cmd.tag, Reply(RESULT_BADCOMMAND))]), c, w);
  }

  lemma ClockDevices(d: State, ct: nat, oks: set<nat>, clock: Clock, w: World)
    ensures Timeouts(d, ct, oks, clock, w).devices == d.devices
  {
    hide TearDown, Acked;
    var due := Due(d, ct);
    TearDownKeepsDevices(AckAll(d, due * oks, clock), due - oks, w, false);
  }

  /** Only the USB side adds devices to the table. */
  lemma VersionThins(d: State, id: nat, major: nat, ok: bool)
    ensures Thinned(d, Version(d, id, major, ok))
  {
    hide Broadcast;
  }

  lemma DrainDevices(d: State, c: nat, n: int, w: World)
    requires c in d.clients
    ensures Drain(d, c, n, w).devices == d.devices
  {
    hide Close;
    CloseKeepsDevices(d, c, w);
  }

  lemma {:induction false} SegmentThins(d: State, e: Event)
    requires e.SegmentArrives? && Enabled(d, e)
    ensures Step(d, e).devices == d.devices
  {
    hide Step, SegmentTo, Enabled;
    if exists k, c :: Addressed(d, e.id, e.s, k, c) {
      var k, c := StepTo(d, e);
      SegmentDevices(d, k, c, e.s, e.ok, e.now, e.w);
    } else {
      StepUnowned(d, e);
    }
  }

  lemma {:induction false} ServedThins(d: State, e: Event)
    requires e.ClientServed? && Enabled(d, e)
    ensures Step(d, e).devices == d.devices
  {
    hide TurnOf;
    var link := d.clients[e.c].link;
    if link.Some? && link.value in d.conns && d.conns[link.value].tcp.txWin < U16 * 256 {
      TurnDevices(d, link.value, e.c, e.ev, e.wrote, e.got, e.ok, e.now, e.w);
    }
  }

  lemma {:induction false} StepThins(d: State, e: Event)
    requires !e.DeviceArrives? && !e.DeviceLeaves?
    ensures Thinned(d, Step(d, e))
  {
    if !Enabled(d, e) {
      StepDisabled(d, e);
    } else {
      assert e.CommandArrives? || e.ClientDrains? ==> e.c in d.clients;
      hide Step, Enabled, Handle, Close, Drain, Timeouts, Version;
      StepOf(d, e);
      match e {
        case CommandArrives(c, cmd, w) =>
          HandleThins(d, c, cmd, w);
        case ClientHangsUp(c, w) =>
          CloseKeepsDevices(d, c, w);
        case ClientDrains(c, n, w) =>
          DrainDevices(d, c, n, w);
        case ClientServed(_, _, _, _, _, _, _) =>
          ServedThins(d, e);
        case SegmentArrives(_, _, _, _, _) =>
          SegmentThins(d, e);
        case ClockTicks(ct, oks, clock, w) =>
          ClockDevices(d, ct, oks, clock, w);
        case Accept =>
        case VersionArrives(id, major, ok) =>
          VersionThins(d, id, major, ok);
      }
    }
  }

  lemma ScanKeeps(g: Edge, fs: seq<Found>, w: World)
    requires EdgeInv(g)
    ensures EdgeInv(UsbStep(g, Scan(fs, w)))
  {
    hide InvBut, DropDead, Unique, Below, Refers;
    var list := AddAll(Unmarked(g.list), fs, g.next);
    UnmarkedUnique(g.list, g.next);
    AddAllUnique(Unmarked(g.list), fs, g.next);
    SweptUnique(list, g.next + |fs|);
    AddAllExtends(Unmarked(g.list), fs, g.next);
    ExtendsRefers(g.list, list, g.d);
    ReapRefers(g.d, list, w);
  }

  lemma ArrivedKeeps(g: Edge, f: Found)
    requires EdgeInv(g)
    ensures EdgeInv(UsbStep(g, Arrived(f)))
  {
    hide InvBut, Refers, Unique, Below;
    AddUnique(g.list, f, g.next);
    ExtendsRefers(g.list, Add(g.list, f, g.next), g.d);
  }

  lemma {:induction false} LeftKeeps(g: Edge, bus: byte, address: byte, w: World)
    requires EdgeInv(g)
    ensures EdgeInv(UsbStep(g, Left(bus, address, w)))
  {
    hide InvBut, Refers, Drop;
    var i := Find(g.list, bus, address);
    if i >= 0 {
      var list := g.list[i := g.list[i].(alive := false)];
      assert Unique(list) && Below(list, g.next);
      DropDevices(g.d, g.list[i].ptr, w);
      ExtendsRefers(g.list, list, g.d);
      FewerRefers(list, g.d, Drop(g.d, g.list[i].ptr, w));
    }
  }

  lemma ReapKeeps(g: Edge, w: World)
    requires EdgeInv(g)
    ensures EdgeInv(UsbStep(g, Reap(w)))
  {
    hide InvBut, DropDead, Unique, Below, Refers;
    SweptUnique(g.list, g.next);
    ReapRefers(g.d, g.list, w);
  }

  lemma FailedKeeps(g: Edge, ptr: nat)
    requires EdgeInv(g)
    ensures EdgeInv(UsbStep(g, TransferFailed(ptr)))
  {
    hide InvBut, Refers;
    assert Unique(Condemned(g.list, ptr)) && Below(Condemned(g.list, ptr), g.next);
    ExtendsRefers(g.list, Condemned(g.list, ptr), g.d);
  }

  lemma AttachRefers(list: seq<UsbDev>, d: State, ptr: nat, ok: bool)
    requires Refers(list, d) && HasPtr(list, ptr)
    ensures Refers(list, Attach(d, ptr, ok))
    ensures !ok && !Carried(d, ptr) ==> !Carried(Attach(d, ptr, ok), ptr)
  {
    assert !ok ==> forall i :: Carries(Attach(d, ptr, ok), i, ptr) ==> Carries(d, i, ptr);
  }

  lemma SerialKeeps(g: Edge, ptr: nat, sent: bool, reading: bool, w: World)
    requires EdgeInv(g)
    ensures EdgeInv(UsbStep(g, SerialRead(ptr, sent, reading, w)))
  {
    hide InvBut, Refers, Drop, Attach, Unique, Below;
    if HasPtr(g.list, ptr) && !Carried(g.d, ptr) {
      var d := Attach(g.d, ptr, sent);
      assert forall i :: i in g.d.devices ==> g.d.devices[i].usb != ptr by {
        assert forall i :: i in g.d.devices ==> !Carries(g.d, i, ptr);
      }
      AttachKeeps(g.d, ptr, sent);
      AttachRefers(g.list, g.d, ptr, sent);
      WithoutKeeps(g.list, ptr, g.next);
      if !sent {
        WithoutRefers(g.list, ptr, g.next, d);
      } else if !reading {
        DropDevices(d, ptr, w);
        FewerRefers(g.list, d, Drop(d, ptr, w));
        WithoutRefers(g.list, ptr, g.next, Drop(d, ptr, w));
      }
    }
  }

  /**
    Why nothing else is allowed: a serial callback that sets its device up keeps the two tables consistent
    if and only if the USB device is still listed and has no mux device yet.
   */
  lemma {:induction false} SerialExact(g: Edge, ptr: nat, w: World)
    requires EdgeInv(g)
    ensures EdgeInv(Started(g, ptr, true, true, w)) <==> HasPtr(g.list, ptr) && !Carried(g.d, ptr)
  {
    hide EdgeInv, HasPtr, Carried, Attach;
    if HasPtr(g.list, ptr) && !Carried(g.d, ptr) {
      SerialKeeps(g, ptr, true, true, w);
    } else if Carried(g.d, ptr) {
      EdgeParts(g);
      TwiceAttached(g.d, ptr);
      EdgeBreaks(g.(d := Attach(g.d, ptr, true)));
    } else {
      LateAttached(g.list, g.d, ptr);
      EdgeBreaks(g.(d := Attach(g.d, ptr, true)));
    }
  }

  lemma EdgeParts(g: Edge)
    requires EdgeInv(g)
    ensures Inv(g.d) && Refers(g.list, g.d)
  {
  }

  lemma EdgeBreaks(g: Edge)
    ensures !Inv(g.d) || !Refers(g.list, g.d) ==> !EdgeInv(g)
  {
  }

  lemma LateAttached(list: seq<UsbDev>, d: State, ptr: nat)
    requires !HasPtr(list, ptr)
    ensures !Refers(list, Attach(d, ptr, true))
  {
    assert Attach(d, ptr, true).devices[d.nextDevice].usb == ptr;
  }

  lemma TwiceAttached(d: State, ptr: nat)
    requires Inv(d) && Carried(d, ptr)
    ensures !Inv(Attach(d, ptr, true))
  {
    hide Agree, AllResting, Archived;
    var i :| Carries(d, i, ptr);
    var d' := Attach(d, ptr, true);
    assert d.nextDevice !in d.devices;
    assert d'.devices[i].usb == ptr == d'.devices[d.nextDevice].usb;
  }

  lemma UsbStepKeeps(g: Edge, e: UsbEvent)
    requires EdgeInv(g)
    ensures EdgeInv(UsbStep(g, e))
  {
    hide EdgeInv;
    match e {
      case Scan(fs, w) => ScanKeeps(g, fs, w);
      case Arrived(f) => ArrivedKeeps(g, f);
      case Left(bus, address, w) => LeftKeeps(g, bus, address, w);
      case TransferFailed(ptr) => FailedKeeps(g, ptr);
      case Reap(w) => ReapKeeps(g, w);
      case SerialRead(ptr, sent, reading, w) => SerialKeeps(g, ptr, sent, reading, w);
      case Inner(e) => InnerKeeps(g, e);
    }
  }

  lemma {:induction false} InnerKeeps(g: Edge, e: Event)
    requires EdgeInv(g)
    ensures EdgeInv(UsbStep(g, Inner(e)))
  {
    hide InvBut, Refers, Unique, Below, Step;
    if !e.DeviceArrives? && !e.DeviceLeaves? {
      StepKeeps(g.d, e);
      StepThins(g.d, e);
      FewerRefers(g.list, g.d, Step(g.d, e));
    }
  }

  ghost function UsbRun(g: Edge, es: seq<UsbEvent>): Edge {
    if es == [] then g else UsbStep(UsbRun(g, es[..|es| - 1]), es[|es| - 1])
  }

  lemma {:induction false} UsbRunKeeps(g: Edge, es: seq<UsbEvent>)
    requires EdgeInv(g)
    ensures EdgeInv(UsbRun(g, es))
  {
    hide EdgeInv, UsbStep;
    if es != [] {
      UsbRunKeeps(g, es[..|es| - 1]);
      UsbStepKeeps(UsbRun(g, es[..|es| - 1]), es[|es| - 1]);
    }
  }

  /**
    In every run of the daemon with its USB side, the USB table has one entry per bus and address,
    every mux device refers to an entry of it, no two to the same one, and so does the device of
    every connection.
   */
  lemma TablesAgree(render: Render, es: seq<UsbEvent>)
    ensures var g := UsbRun(Edge([], 0, Boot(render)), es);
            && Unique(g.list)
            && (forall i :: i in g.d.devices ==> HasPtr(g.list, g.d.devices[i].usb))
            && (forall i, j :: i in g.d.devices && j in g.d.devices && i != j ==>
                g.d.devices[i].usb != g.d.devices[j].usb)
            && (forall k :: k in g.d.conns ==>
                g.d.conns[k].dev in g.d.devices && HasPtr(g.list, g.d.devices[g.d.conns[k].dev].usb))
  {
    hide UsbStep;
    BootInv(render);
    UsbRunKeeps(Edge([], 0, Boot(render)), es);
    var d := UsbRun(Edge([], 0, Boot(render)), es).d;
    assert DevicesOk(d.devices, d.nextDevice);
    forall k | k in d.conns ensures d.conns[k].dev in d.devices {
      assert EntryOk(d, k);
    }
  }

  /** After a scan, every connection that is left runs over a device the bus has just shown. */
  lemma ConnectionsOnFound(g: Edge, fs: seq<Found>, w: World, k: nat)
    requires EdgeInv(g) && k in UsbStep(g, Scan(fs, w)).d.conns
    ensures exists u, f :: u in UsbStep(g, Scan(fs, w)).list && f in fs && Is(f, u.bus, u.address)
              && Carries(UsbStep(g, Scan(fs, w)).d, UsbStep(g, Scan(fs, w)).d.conns[k].dev, u.ptr)
  {
    hide UsbStep;
    ScanKeeps(g, fs, w);
    var g' := UsbStep(g, Scan(fs, w));
    assert EntryOk(g'.d, k);
    var id := g'.d.conns[k].dev;
    assert HasPtr(g'.list, g'.d.devices[id].usb);
    var j :| 0 <= j < |g'.list| && g'.list[j].ptr == g'.d.devices[id].usb;
    var u := g'.list[j];
    var f := ShownByBus(g, fs, w, u);
    assert Carries(g'.d, id, u.ptr);
  }

  lemma ShownByBus(g: Edge, fs: seq<Found>, w: World, u: UsbDev) returns (f: Found)
    requires EdgeInv(g) && u in UsbStep(g, Scan(fs, w)).list
    ensures f in fs && Is(f, u.bus, u.address)
  {
    hide Unique, Below;
    var list := Discovered(g.list, fs, g.next);
    DiscoverExact(g.list, fs, g.next, u.bus, u.address);
    var j :| 0 <= j < |list| && list[j] == u;
    assert At(list[j], u.bus, u.address);
    var known := Listed(g.list, u.bus, u.address);
    assert Earned(known, fs, u.bus, u.address);
    var i :| 0 <= i < |fs| && Is(fs[i], u.bus, u.address);
    f := fs[i];
  }
}
