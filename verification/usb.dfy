/** The USB side of src/usb.c in place: the device list with its marks, above `Usbmuxd.Muxd`. */
module UsbList {
  import opened Words
  import opened Daemon
  import opened DaemonInv
  import opened DaemonRuns
  import opened Discovery
  import opened Usbmuxd

  lemma DropIs(d: State, i: nat, usb: nat, w: World)
    requires Inv(d) && Carries(d, i, usb)
    ensures Drop(d, usb, w) == Detach(d, i, w)
  {
    hide InvBut, Detach;
    OnlyOne(d, i);
  }

  lemma DropNone(d: State, usb: nat, w: World)
    requires !Carried(d, usb)
    ensures Drop(d, usb, w) == d
  {
  }

  lemma LeavesIs(d: State, i: nat, w: World)
    ensures Step(d, DeviceLeaves(i, w)) == Detach(d, i, w)
  {
  }

  /** Taking out one entry of a table whose identities differ. */
  lemma {:induction false} WithoutAt(list: seq<UsbDev>, j: nat)
    requires Unique(list) && j < |list|
    ensures Without(list, list[j].ptr) == list[..j] + list[j + 1..]
  {
    var n := |list| - 1;
    var init, ptr := list[..n], list[j].ptr;
    assert forall i :: 0 <= i < n ==> init[i] == list[i];
    if j == n {
      WithoutNone(init, ptr);
      assert list[j + 1..] == [];
    } else {
      WithoutAt(init, j);
      assert list[j + 1..] == init[j + 1..] + [list[n]] && init[..j] == list[..j];
    }
  }

  lemma {:induction false} WithoutNone(list: seq<UsbDev>, ptr: nat)
    requires forall i :: 0 <= i < |list| ==> list[i].ptr != ptr
    ensures Without(list, ptr) == list
  {
    if list != [] {
      var n := |list| - 1;
      WithoutNone(list[..n], ptr);
      assert list == list[..n] + [list[n]];
    }
  }

  lemma SweptNothing(all: seq<UsbDev>)
    ensures all == Swept(all[..0]) + all[0..]
  {
  }

  lemma DropNothing(d: State, all: seq<UsbDev>, w: World)
    ensures DropDead(d, all[..0], w) == d
  {
  }

  lemma DropOne(d: State, all: seq<UsbDev>, i: nat, w: World)
    requires i < |all|
    ensures var d' := DropDead(d, all[..i], w);
            DropDead(d, all[..i + 1], w) == if all[i].alive then d' else Drop(d', all[i].ptr, w)
  {
    hide Drop;
    assert all[..i + 1][..i] == all[..i];
  }

  /** One round of the sweep. */
  lemma SweepOne(all: seq<UsbDev>, i: nat)
    requires i < |all| && Unique(Swept(all[..i]) + all[i..])
    ensures var list := Swept(all[..i]) + all[i..];
            Swept(all[..i + 1]) + all[i + 1..] == if all[i].alive then list else Without(list, all[i].ptr)
  {
    var kept, u, rest := Swept(all[..i]), all[i], all[i + 1..];
    var list := kept + all[i..];
    assert all[..i + 1][..i] == all[..i] && all[i..] == [u] + rest;
    assert list == (kept + [u]) + rest;
    if !u.alive {
      assert list[|kept|] == u && list[..|kept|] == kept && list[|kept| + 1..] == rest;
      WithoutAt(list, |kept|);
    }
  }

  class UsbBus {
    const muxd: Muxd
    var list: seq<UsbDev>
    var next: nat
    var failures: nat

    ghost function View(): Edge
      reads this, muxd
    {
      Edge(list, next, muxd.View())
    }

    ghost predicate Valid()
      reads this, muxd
    {
      EdgeInv(View())
    }

    constructor (muxd: Muxd)
      requires Inv(muxd.View()) && muxd.devices == map[]
      ensures Valid() && View() == Edge([], 0, muxd.View()) && this.muxd == muxd
    {
      this.muxd, list, next, failures := muxd, [], 0, 0;
    }

    /** `find_device`. */
    method FindDevice(bus: byte, address: byte) returns (i: int)
      ensures i == Find(list, bus, address)
    {
      var j := 0;
      while j < |list|
        invariant 0 <= j <= |list|
        invariant Find(list, bus, address) == var i := Find(list[j..], bus, address); if i < 0 then -1 else i + j
      {
        if At(list[j], bus, address) {
          return j;
        }
        assert list[j..][1..] == list[j + 1..];
        j := j + 1;
      }
      i := -1;
    }

    /** `usb_device_add`: 0 or -1. */
    method UsbDeviceAdd(f: Found) returns (res: int)
      modifies this`list, this`next
      ensures list == Add(old(list), f, old(next)) && next == old(next) + 1
      ensures res == if Added(old(list), f) then 0 else -1
    {
      var i := FindDevice(f.bus, f.address);
      next := next + 1;
      if i >= 0 {
        list := list[i := list[i].(alive := true)];
        return 0;
      }
      if f.setup.Rejected? {
        return -1;
      }
      list := list + [UsbDev(next - 1, f.bus, f.address, true)];
      if !f.setup.asked {
        list := list[|list| - 1 := list[|list| - 1].(alive := false)];
        return -1;
      }
      res := 0;
    }

    /** The hotplug callback for a device that arrives, with hotplug enabled. */
    method HotplugArrived(f: Found)
      requires Valid()
      modifies this`list, this`next
      ensures View() == UsbStep(old(View()), Arrived(f)) && Valid()
    {
      hide EdgeInv;
      UsbStepKeeps(View(), Arrived(f));
      var _ := UsbDeviceAdd(f);
    }

    /** The list part of `usb_disconnect`. */
    method UsbDisconnect(ptr: nat)
      requires Unique(list)
      modifies this`list
      ensures list == Without(old(list), ptr)
    {
      var j := 0;
      while j < |list| && list[j].ptr != ptr
        invariant 0 <= j <= |list|
        invariant forall i :: 0 <= i < j ==> list[i].ptr != ptr
      {
        j := j + 1;
      }
      if j < |list| {
        WithoutAt(list, j);
        list := list[..j] + list[j + 1..];
      } else {
        WithoutNone(list, ptr);
      }
    }

    /** `device_remove` for an entry of the list. */
    method DeviceRemove(ptr: nat, w: World)
      requires Inv(muxd.View())
      modifies muxd
      ensures muxd.View() == Drop(old(muxd.View()), ptr, w) && Inv(muxd.View())
    {
      hide InvBut, Detach, Step, Drop;
      ghost var d := muxd.View();
      muxd.DeviceRemove(ptr, w);
      if exists i :: i in d.devices && d.devices[i].usb == ptr {
        var i :| i in d.devices && d.devices[i].usb == ptr && muxd.View() == Step(d, DeviceLeaves(i, w));
        assert Carries(d, i, ptr);
        DropIs(d, i, ptr, w);
        LeavesIs(d, i, w);
      } else {
        assert forall i :: !Carries(d, i, ptr);
        DropNone(d, ptr, w);
      }
    }

    /** `reap_dead_devices`. */
    method ReapDeadDevices(w: World)
      requires Valid()
      modifies this`list, muxd
      ensures View() == UsbStep(old(View()), Reap(w)) && Valid()
    {
      hide InvBut, EdgeInv, Drop;
      UsbStepKeeps(View(), Reap(w));
      EdgeFacts(View());
      ReapLoop(w);
    }

    /** One round of the loop. */
    method ReapEntry(u: UsbDev, w: World)
      requires Unique(list) && Below(list, next) && Inv(muxd.View())
      modifies this`list, muxd
      ensures Unique(list) && Below(list, next) && Inv(muxd.View())
      ensures list == if u.alive then old(list) else Without(old(list), u.ptr)
      ensures muxd.View() == if u.alive then old(muxd.View()) else Drop(old(muxd.View()), u.ptr, w)
    {
      hide InvBut, Drop, Unique, Below, Without;
      if !u.alive {
        WithoutKeeps(list, u.ptr, next);
        DeviceRemove(u.ptr, w);
        UsbDisconnect(u.ptr);
      }
    }

    method ReapLoop(w: World)
      requires Unique(list) && Below(list, next) && Inv(muxd.View())
      modifies this`list, muxd
      ensures list == Swept(old(list)) && muxd.View() == DropDead(old(muxd.View()), old(list), w)
    {
      hide InvBut, Drop, DropDead, Unique, Below, Swept, Without;
      var all, i := list, 0;
      ghost var d := muxd.View();
      SweptNothing(all);
      DropNothing(d, all, w);
      while i < |all|
        invariant 0 <= i <= |all| && Unique(list) && Below(list, next) && Inv(muxd.View())
        invariant list == Swept(all[..i]) + all[i..]
        invariant muxd.View() == DropDead(d, all[..i], w)
      {
        SweepOne(all, i);
        DropOne(d, all, i, w);
        ReapEntry(all[i], w);
        i := i + 1;
      }
      assert all[..i] == all && all[i..] == [];
    }

    method ClearMarks()
      modifies this`list
      ensures list == Unmarked(old(list))
    {
      ghost var was := list;
      var i := 0;
      while i < |list|
        invariant 0 <= i <= |list| == |was|
        invariant forall j :: 0 <= j < |list| ==> list[j] == if j < i then was[j].(alive := false) else was[j]
      {
        list := list[i := list[i].(alive := false)];
        i := i + 1;
      }
    }

    /** The marking loops of `usb_discover`. */
    method MarkAll(fs: seq<Found>) returns (count: nat)
      modifies this`list, this`next
      ensures list == AddAll(Unmarked(old(list)), fs, old(next)) && next == old(next) + |fs|
      ensures count == AddedCount(Unmarked(old(list)), fs, old(next))
    {
      ghost var was, first := list, next;
      hide Add, Added, Unmarked;
      ClearMarks();
      var i := 0;
      count := 0;
      while i < |fs|
        invariant 0 <= i <= |fs| && next == first + i
        invariant list == AddAll(Unmarked(was), fs[..i], first)
        invariant count == AddedCount(Unmarked(was), fs[..i], first)
      {
        assert fs[..i + 1][..i] == fs[..i];
        var res := UsbDeviceAdd(fs[i]);
        if res >= 0 {
          count := count + 1;
        }
        i := i + 1;
      }
      assert fs[..i] == fs;
    }

    /**
      `usb_discover`; `shown` is the list of devices, or the error of `libusb_get_device_list`. Five
      failures in a row are let pass, the sixth is returned.
     */
    method UsbDiscover(shown: Option<seq<Found>>, error: int, w: World) returns (res: int)
      requires Valid() && error < 0
      modifies this`list, this`next, this`failures, muxd
      ensures Valid()
      ensures shown.Some? ==> View() == UsbStep(old(View()), Scan(shown.value, w)) && failures == 0
      ensures shown.Some? ==> res == AddedCount(Unmarked(old(list)), shown.value, old(next))
      ensures shown.None? ==> View() == old(View()) && failures == old(failures) + 1
      ensures shown.None? ==> res == if old(failures) >= 5 then error else 0
    {
      hide InvBut, EdgeInv, DropDead;
      ghost var g := View();
      if shown.None? {
        failures := failures + 1;
        return if failures > 5 then error else 0;
      }
      failures := 0;
      UsbStepKeeps(g, Scan(shown.value, w));
      MarkedUnique(g, shown.value);
      res := MarkAll(shown.value);
      ReapLoop(w);
    }

    /** The hotplug callback for a device that left: dead and without its mux device, but still listed. */
    method HotplugLeft(bus: byte, address: byte, w: World)
      requires Valid()
      modifies this`list, muxd
      ensures View() == UsbStep(old(View()), Left(bus, address, w)) && Valid()
    {
      hide InvBut, EdgeInv, Drop;
      UsbStepKeeps(View(), Left(bus, address, w));
      EdgeFacts(View());
      var i := FindDevice(bus, address);
      if i >= 0 {
        var ptr := list[i].ptr;
        list := list[i := list[i].(alive := false)];
        DeviceRemove(ptr, w);
      }
    }

    /** The end of `tx_callback` and `rx_callback` when a transfer failed. */
    method TransferDone(ptr: nat)
      requires Valid()
      modifies this`list
      ensures View() == UsbStep(old(View()), TransferFailed(ptr)) && Valid()
    {
      hide EdgeInv;
      UsbStepKeeps(View(), TransferFailed(ptr));
      ghost var was := list;
      var i := 0;
      while i < |list|
        invariant 0 <= i <= |list| == |was|
        invariant forall j :: 0 <= j < |list| ==> list[j] == if j < i
            && was[j].ptr == ptr then was[j].(alive := false) else was[j]
      {
        if list[i].ptr == ptr {
          list := list[i := list[i].(alive := false)];
        }
        i := i + 1;
      }
      assert list == Condemned(was, ptr);
    }

    /**
      The end of `get_serial_callback`: `sent` says whether the version request went out, `reading`
      whether at least one read loop could be started.
     */
    method GetSerialCallback(ptr: nat, sent: bool, reading: bool, w: World)
      requires Valid() && HasPtr(list, ptr) && !Carried(muxd.View(), ptr)
      modifies this`list, muxd
      ensures View() == UsbStep(old(View()), SerialRead(ptr, sent, reading, w)) && Valid()
    {
      hide InvBut, EdgeInv, Drop, Attach, Step, Without, Unique, Below, HasPtr, Carried, UsbStep;
      UsbStepKeeps(View(), SerialRead(ptr, sent, reading, w));
      SerialIs(View(), ptr, sent, reading, w);
      EdgeFacts(View());
      Uncarried(muxd.View(), ptr);
      StepAttach(muxd.View(), ptr, sent);
      var _ := muxd.DeviceAdd(ptr, sent);
      if !sent {
        UsbDisconnect(ptr);
      } else if !reading {
        DeviceRemove(ptr, w);
        UsbDisconnect(ptr);
      }
    }
  }

  lemma SerialIs(g: Edge, ptr: nat, sent: bool, reading: bool, w: World)
    requires HasPtr(g.list, ptr) && !Carried(g.d, ptr)
    ensures UsbStep(g, SerialRead(ptr, sent, reading, w)) == Started(g, ptr, sent, reading, w)
  {
  }

  lemma EdgeFacts(g: Edge)
    requires EdgeInv(g)
    ensures Unique(g.list) && Below(g.list, g.next) && Inv(g.d)
  {
  }

  lemma Uncarried(d: State, ptr: nat)
    requires !Carried(d, ptr)
    ensures forall i :: i in d.devices ==> d.devices[i].usb != ptr
  {
    assert forall i :: i in d.devices ==> !Carries(d, i, ptr);
  }

  lemma MarkedUnique(g: Edge, fs: seq<Found>)
    requires EdgeInv(g)
    ensures Inv(g.d) && Unique(AddAll(Unmarked(g.list), fs, g.next))
    ensures Below(AddAll(Unmarked(g.list), fs, g.next), g.next + |fs|)
  {
    UnmarkedUnique(g.list, g.next);
    AddAllUnique(Unmarked(g.list), fs, g.next);
  }
}
