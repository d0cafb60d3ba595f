/**
  The reassembler in `device_data_input` (src/device.c): mux packets larger than one USB transfer
  arrive in pieces of USB_MRU bytes and are put together again.
 */
module Reassembly {
  import opened Words

  const USB_MRU: nat := 16384
  const DEV_MRU: nat := 65536

  function Be16(n: u16): (s: seq<byte>)
    ensures |s| == 2
  {
    [n / 0x100, n % 0x100]
  }

  function UnBe16(s: seq<byte>): u16
    requires |s| >= 2
  {
    0x100 * s[0] as int + s[1] as int
  }

  function Be32(n: u32): (s: seq<byte>)
    ensures |s| == 4
  {
    Be16(n / 0x1_0000) + Be16(n % 0x1_0000)
  }

  function UnBe32(s: seq<byte>): u32
    requires |s| >= 4
  {
    0x1_0000 * UnBe16(s) + UnBe16(s[2..])
  }

  /** The length field of the mux header at the start of `s`. */
  function LengthField(s: seq<byte>): u32
    requires |s| >= 8
  {
    UnBe32(s[4..])
  }

  /** A completed USB transfer: its first `length` bytes are new, the rest of the buffer is stale. */
  datatype Transfer = Transfer(buf: seq<byte>, length: nat) {
    ghost predicate Sane() {
      8 <= |buf| && length <= |buf|
    }

    function Content(): seq<byte>
      requires length <= |buf|
    {
      buf[..length]
    }
  }

  /** What is handed on of `s`: a packet whose length field is right, or nothing. */
  function Checked(s: seq<byte>): seq<seq<byte>>
    requires |s| >= 8
  {
    if LengthField(s) == |s| then [s] else []
  }

  /** The gathered bytes are nothing or at least a header. */
  ghost predicate Gathered(pkt: seq<byte>) {
    pkt == [] || |pkt| >= 8
  }

  datatype Outcome = Outcome(pkt: seq<byte>, out: seq<seq<byte>>)

  /** `device_data_input` up to the dispatch: `pkt` is `pktbuf[..pktlen]`, `out` what is dispatched. */
  function Input(pkt: seq<byte>, t: Transfer): (r: Outcome)
    requires Gathered(pkt) && t.Sane()
    ensures Gathered(r.pkt) && |r.out| <= 1
  {
    if t.length == 0 || t.length > USB_MRU || t.length > DEV_MRU then Outcome(pkt, [])
    else if pkt != [] then
      if |pkt| + t.length > DEV_MRU then Outcome([], [])
      else if t.length < USB_MRU || LengthField(pkt + t.Content()) == |pkt| + t.length then
        Outcome([], Checked(pkt + t.Content()))
      else Outcome(pkt + t.Content(), [])
    else if t.length == USB_MRU && t.length < LengthField(t.buf) then Outcome(t.Content(), [])
    else Outcome([], if LengthField(t.buf) == t.length then [t.Content()] else [])
  }

  ghost predicate AllSane(ts: seq<Transfer>) {
    forall i :: 0 <= i < |ts| ==> ts[i].Sane()
  }

  /** A run of the reassembler. */
  function Run(pkt: seq<byte>, ts: seq<Transfer>): (r: Outcome)
    requires Gathered(pkt) && AllSane(ts)
    ensures Gathered(r.pkt)
    decreases |ts|
  {
    if ts == [] then Outcome(pkt, []) else
    var r := Input(pkt, ts[0]);
    var r' := Run(r.pkt, ts[1..]);
    Outcome(r'.pkt, r.out + r'.out)
  }

  // ---------------------------------------------------------------- splitting and putting together

  /** The pieces in which a packet arrives. */
  function Cut(p: seq<byte>): (cs: seq<seq<byte>>)
    ensures cs != []
  {
    if |p| <= USB_MRU then [p] else [p[..USB_MRU]] + Cut(p[USB_MRU..])
  }

  function CutAll(ps: seq<seq<byte>>): seq<seq<byte>> {
    if ps == [] then [] else Cut(ps[0]) + CutAll(ps[1..])
  }

  /** The contents of the non-empty transfers. */
  function Contents(ts: seq<Transfer>): seq<seq<byte>>
    requires AllSane(ts)
  {
    if ts == [] then [] else (if ts[0].length == 0 then [] else [ts[0].Content()]) + Contents(ts[1..])
  }

  ghost predicate WellFormed(p: seq<byte>) {
    8 <= |p| <= DEV_MRU && LengthField(p) == |p|
  }

  ghost predicate AllWellFormed(ps: seq<seq<byte>>) {
    forall i :: 0 <= i < |ps| ==> WellFormed(ps[i])
  }

  lemma HeaderOfPrefix(p: seq<byte>, n: nat)
    requires 8 <= n <= |p|
    ensures LengthField(p[..n]) == LengthField(p)
  {
    assert p[..n][4..][2..] == p[4..][2..][..n - 6];
  }

  /** The stale part of the buffer does not matter once the header has arrived. */
  lemma HeaderArrived(t: Transfer)
    requires t.Sane() && t.length >= 8
    ensures LengthField(t.Content()) == LengthField(t.buf)
  {
    HeaderOfPrefix(t.buf, t.length);
  }

  lemma EmptyTransfer(pkt: seq<byte>, t: Transfer)
    requires Gathered(pkt) && t.Sane() && t.length == 0
    ensures Input(pkt, t) == Outcome(pkt, [])
  {
  }

  /** One piece of packet `p`, of which `k` pieces have been gathered. */
  lemma InputPiece(p: seq<byte>, k: nat, t: Transfer)
    requires WellFormed(p) && k * USB_MRU < |p| && t.Sane()
    requires t.length > 0 && t.Content() == Cut(p[k * USB_MRU..])[0]
    ensures Input(p[..k * USB_MRU], t) ==
              if |p| <= (k + 1) * USB_MRU then Outcome([], [p]) else Outcome(p[..(k + 1) * USB_MRU], [])
  {
    var done, rest := p[..k * USB_MRU], p[k * USB_MRU..];
    var n := t.length;
    assert t.Content() == rest[..n];
    assert done + t.Content() == p[..k * USB_MRU + n];
    HeaderOfPrefix(p, if k * USB_MRU + n < 8 then 8 else k * USB_MRU + n);
    if |p| <= (k + 1) * USB_MRU {
      assert p[..k * USB_MRU + n] == p;
    }
    if k == 0 {
      HeaderArrived(t);
    }
  }

  /** The first non-empty transfer carries the first piece, the others carry the rest. */
  lemma FirstPiece(ts: seq<Transfer>, cs: seq<seq<byte>>, ds: seq<seq<byte>>)
    requires AllSane(ts) && cs != [] && Contents(ts) == cs + ds
    ensures ts != [] && AllSane(ts[1..])
    ensures ts[0].length == 0 ==> Contents(ts[1..]) == cs + ds
    ensures ts[0].length != 0 ==> ts[0].Content() == cs[0] && Contents(ts[1..]) == cs[1..] + ds
  {
    assert Contents(ts) == (if ts[0].length == 0 then [] else [ts[0].Content()]) + Contents(ts[1..]);
    if ts[0].length != 0 {
      assert ts[0].Content() == Contents(ts)[0] && Contents(ts[1..]) == Contents(ts)[1..] == cs[1..] + ds;
    }
  }

  /** The pieces of what is left of `p` after `k` pieces. */
  lemma CutRest(p: seq<byte>, k: nat)
    requires k * USB_MRU < |p|
    ensures |p| <= (k + 1) * USB_MRU ==> Cut(p[k * USB_MRU..])[1..] == []
    ensures |p| > (k + 1) * USB_MRU ==> Cut(p[k * USB_MRU..])[1..] == Cut(p[(k + 1) * USB_MRU..])
  {
    assert |p| > (k + 1) * USB_MRU ==> p[k * USB_MRU..][USB_MRU..] == p[(k + 1) * USB_MRU..];
  }

  /** Finishing packet `p` and carrying on with the others. */
  lemma {:induction false} RunFrom(p: seq<byte>, k: nat, ps: seq<seq<byte>>, ts: seq<Transfer>)
    requires WellFormed(p) && AllWellFormed(ps) && k * USB_MRU < |p| && AllSane(ts)
    requires Contents(ts) == Cut(p[k * USB_MRU..]) + CutAll(ps)
    ensures Run(p[..k * USB_MRU], ts) == Outcome([], [p] + ps)
    decreases |ts|, 0
  {
    hide Input, Gathered, LengthField, WellFormed, Cut;
    FirstPiece(ts, Cut(p[k * USB_MRU..]), CutAll(ps));
    if ts[0].length == 0 {
      EmptyTransfer(p[..k * USB_MRU], ts[0]);
      RunFrom(p, k, ps, ts[1..]);
    } else {
      InputPiece(p, k, ts[0]);
      CutRest(p, k);
      if |p| <= (k + 1) * USB_MRU {
        assert [] + CutAll(ps) == CutAll(ps);
        RoundTrip(ps, ts[1..]);
      } else {
        RunFrom(p, k + 1, ps, ts[1..]);
      }
    }
  }

  /**
    Every sequence of packets that arrives in pieces, with empty transfers anywhere in between
    and whatever stale bytes behind each piece, is dispatched as exactly that sequence.
   */
  lemma {:induction false} RoundTrip(ps: seq<seq<byte>>, ts: seq<Transfer>)
    requires AllWellFormed(ps) && AllSane(ts) && Contents(ts) == CutAll(ps)
    ensures Run([], ts) == Outcome([], ps)
    decreases |ts|, 1
  {
    if ps == [] {
      OnlyEmpty(ts);
    } else {
      assert ps[0][..0 * USB_MRU] == [] && ps[0][0 * USB_MRU..] == ps[0] && ps == [ps[0]] + ps[1..];
      RunFrom(ps[0], 0, ps[1..], ts);
    }
  }

  lemma {:induction false} OnlyEmpty(ts: seq<Transfer>)
    requires AllSane(ts) && Contents(ts) == []
    ensures Run([], ts) == Outcome([], [])
  {
    if ts != [] {
      OnlyEmpty(ts[1..]);
    }
  }

  // ---------------------------------------------------------------- whatever arrives

  /** `pktlen` is always a multiple of the transfer size, and at most the buffer. */
  ghost predicate Aligned(pkt: seq<byte>) {
    |pkt| % USB_MRU == 0 && |pkt| <= DEV_MRU
  }

  lemma InputAligned(pkt: seq<byte>, t: Transfer)
    requires Aligned(pkt) && Gathered(pkt) && t.Sane()
    ensures Aligned(Input(pkt, t).pkt)
  {
  }

  lemma {:induction false} RunAligned(pkt: seq<byte>, ts: seq<Transfer>)
    requires Aligned(pkt) && Gathered(pkt) && AllSane(ts)
    ensures Aligned(Run(pkt, ts).pkt)
    decreases |ts|
  {
    if ts != [] {
      InputAligned(pkt, ts[0]);
      RunAligned(Input(pkt, ts[0]).pkt, ts[1..]);
    }
  }

  lemma {:induction false} RunAppend(pkt: seq<byte>, ts: seq<Transfer>, us: seq<Transfer>)
    requires Gathered(pkt) && AllSane(ts) && AllSane(us)
    ensures AllSane(ts + us)
    ensures var r := Run(pkt, ts); var r' := Run(r.pkt, us);
            Run(pkt, ts + us) == Outcome(r'.pkt, r.out + r'.out)
    decreases |ts|
  {
    hide Input, Gathered;
    if ts == [] {
      assert ts + us == us;
      assert Run(pkt, ts) == Outcome(pkt, []);
    } else {
      assert (ts + us)[0] == ts[0] && (ts + us)[1..] == ts[1..] + us;
      var o := Input(pkt, ts[0]);
      RunAppend(o.pkt, ts[1..], us);
      var r := Run(o.pkt, ts[1..]);
      assert o.out + (r.out + Run(r.pkt, us).out) == (o.out + r.out) + Run(r.pkt, us).out;
    }
  }

  /** A non-empty short transfer always empties the buffer. */
  lemma ShortEmpties(pkt: seq<byte>, t: Transfer)
    requires Gathered(pkt) && t.Sane() && 0 < t.length < USB_MRU
    ensures Input(pkt, t).pkt == []
  {
  }

  /**
    Self-synchronisation: after any garbage, one non-empty short transfer is enough for all later
    well-formed packets to be dispatched intact; `junk` is what the garbage itself looked like.
   */
  lemma {:induction false} Resynchronises(pkt: seq<byte>, garbage: seq<Transfer>, t: Transfer, ps: seq<seq<byte>>,
                                          ts: seq<Transfer>)
    requires Gathered(pkt) && AllSane(garbage) && t.Sane() && 0 < t.length < USB_MRU
    requires AllWellFormed(ps) && AllSane(ts) && Contents(ts) == CutAll(ps)
    ensures AllSane(garbage + [t] + ts)
    ensures exists junk :: Run(pkt, garbage + [t] + ts) == Outcome([], junk + ps) && |junk| <= |garbage| + 1
  {
    hide Input, Run, WellFormed, Contents, CutAll;
    var r := Run(pkt, garbage);
    RunAppend(pkt, garbage, [t]);
    ShortEmpties(r.pkt, t);
    RunOne(r.pkt, t);
    RunAppend(pkt, garbage + [t], ts);
    RoundTrip(ps, ts);
    OutputBound(pkt, garbage);
    var junk := r.out + Input(r.pkt, t).out;
    assert Run(pkt, garbage + [t] + ts) == Outcome([], junk + ps);
  }

  lemma {:induction false} OutputBound(pkt: seq<byte>, ts: seq<Transfer>)
    requires Gathered(pkt) && AllSane(ts)
    ensures |Run(pkt, ts).out| <= |ts|
    decreases |ts|
  {
    if ts != [] {
      OutputBound(Input(pkt, ts[0]).pkt, ts[1..]);
    }
  }

  /** No bytes are mixed up or left out: `p` is a stretch of `s`. */
  ghost predicate Stretch(p: seq<byte>, s: seq<byte>) {
    exists i, j :: 0 <= i <= j <= |s| && p == s[i..j]
  }

  ghost predicate Suffix(p: seq<byte>, s: seq<byte>) {
    |p| <= |s| && p == s[|s| - |p|..]
  }

  /** Everything that arrived, in order. */
  function Stream(ts: seq<Transfer>): seq<byte>
    requires AllSane(ts)
  {
    if ts == [] then [] else Stream(ts[..|ts| - 1]) + ts[|ts| - 1].Content()
  }

  /** The read transfers ask for USB_MRU bytes. */
  ghost predicate AllBounded(ts: seq<Transfer>) {
    forall i :: 0 <= i < |ts| ==> ts[i].length <= USB_MRU
  }

  /** A stretch of `s` with the right length field; the header is in it unless it is too short for one. */
  ghost predicate Sound(p: seq<byte>, s: seq<byte>) {
    Stretch(p, s) && |p| <= DEV_MRU && (|p| >= 8 ==> WellFormed(p))
  }

  lemma SoundGrows(p: seq<byte>, s: seq<byte>, c: seq<byte>)
    requires Sound(p, s)
    ensures Sound(p, s + c)
  {
    var i, j :| 0 <= i <= j <= |s| && p == s[i..j];
    assert p == (s + c)[i..j];
  }

  lemma SuffixGrows(p: seq<byte>, s: seq<byte>, c: seq<byte>)
    requires Suffix(p, s)
    ensures Suffix(p + c, s + c)
  {
  }

  lemma SuffixStretch(p: seq<byte>, s: seq<byte>)
    requires Suffix(p, s)
    ensures Stretch(p, s)
  {
    assert p == s[|s| - |p|..|s|];
  }

  /** A packet that passes the length test and ends where `s` ends is sound. */
  lemma CheckedSound(p: seq<byte>, s: seq<byte>)
    requires Suffix(p, s) && |p| <= DEV_MRU && (|p| >= 8 ==> LengthField(p) == |p|)
    ensures Sound(p, s)
  {
    SuffixStretch(p, s);
  }

  lemma InputSuffix(pkt: seq<byte>, t: Transfer, s: seq<byte>)
    requires Gathered(pkt) && t.Sane() && t.length <= USB_MRU && Suffix(pkt, s)
    ensures Suffix(Input(pkt, t).pkt, s + t.Content())
    ensures Suffix(pkt + t.Content(), s + t.Content()) && Suffix(t.Content(), s + t.Content())
  {
    SuffixGrows(pkt, s, t.Content());
    SuffixGrows([], s, t.Content());
    assert [] + t.Content() == t.Content();
    if t.length == 0 {
      assert s + t.Content() == s;
    }
  }

  lemma InputSound(pkt: seq<byte>, t: Transfer, s: seq<byte>, p: seq<byte>)
    requires Gathered(pkt) && t.Sane() && t.length <= USB_MRU && Suffix(pkt, s)
    requires p in Input(pkt, t).out
    ensures Sound(p, s + t.Content())
  {
    hide Suffix, Sound, LengthField;
    InputSuffix(pkt, t, s);
    if t.length >= 8 {
      HeaderArrived(t);
    }
    CheckedSound(p, s + t.Content());
  }

  /**
    Whatever arrives, a dispatched packet is a contiguous stretch of the bytes that arrived, and
    its length field is its length.
   */
  lemma {:induction false} RunSound(ts: seq<Transfer>)
    requires AllSane(ts) && AllBounded(ts)
    ensures Suffix(Run([], ts).pkt, Stream(ts))
    ensures forall p :: p in Run([], ts).out ==> Sound(p, Stream(ts))
    decreases |ts|
  {
    hide Input, Sound, Suffix;
    if ts == [] {
      NothingYet();
    } else {
      var before, t := ts[..|ts| - 1], ts[|ts| - 1];
      assert ts == before + [t];
      RunSound(before);
      var r := Run([], before);
      RunAppend([], before, [t]);
      RunOne(r.pkt, t);
      InputSuffix(r.pkt, t, Stream(before));
      forall p | p in Run([], ts).out ensures Sound(p, Stream(ts)) {
        if p in r.out {
          SoundGrows(p, Stream(before), t.Content());
        } else {
          InputSound(r.pkt, t, Stream(before), p);
        }
      }
    }
  }

  lemma NothingYet()
    ensures Suffix([], [])
  {
  }

  lemma RunOne(pkt: seq<byte>, t: Transfer)
    requires Gathered(pkt) && t.Sane()
    ensures Run(pkt, [t]) == Input(pkt, t)
  {
    assert [t][1..] == [];
    assert Run(pkt, [t]).out == Input(pkt, t).out + [];
  }

  // ---------------------------------------------------------------- in place

  /** The reassembly buffer of a `mux_device`. */
  class Reassembler {
    const pktbuf: array<byte>
    var pktlen: nat

    ghost predicate Valid()
      reads this, pktbuf
    {
      pktbuf.Length == DEV_MRU && pktlen <= DEV_MRU && Aligned(pktbuf[..pktlen])
    }

    ghost function View(): (s: seq<byte>)
      requires Valid()
      reads this, pktbuf
      ensures Gathered(s)
    {
      pktbuf[..pktlen]
    }

    constructor ()
      ensures Valid() && View() == [] && fresh(pktbuf)
    {
      pktbuf := new byte[DEV_MRU](_ => 0);
      pktlen := 0;
    }

    /** memcpy of the first `n` bytes of the transfer to position `at`. */
    method CopyIn(at: nat, buffer: array<byte>, n: nat)
      requires pktbuf != buffer && at + n <= pktbuf.Length && n <= buffer.Length
      modifies pktbuf
      ensures pktbuf[..at] == old(pktbuf[..at]) && pktbuf[at..at + n] == buffer[..n]
    {
      for i := 0 to n
        invariant pktbuf[..at] == old(pktbuf[..at])
        invariant forall j :: 0 <= j < i ==> pktbuf[at + j] == buffer[j]
      {
        pktbuf[at + i] := buffer[i];
      }
    }

    /** `device_data_input` up to the dispatch. */
    method DataInput(buffer: array<byte>, length: nat) returns (out: seq<seq<byte>>)
      requires Valid() && pktbuf != buffer && 8 <= buffer.Length && length <= buffer.Length
      modifies this`pktlen, pktbuf
      ensures Valid()
      ensures Outcome(View(), out) == Input(old(View()), Transfer(old(buffer[..]), length))
    {
      ghost var was, t := View(), Transfer(buffer[..], length);
      InputAligned(was, t);
      assert buffer[..length] == t.Content();
      out := [];
      if length == 0 || length > USB_MRU || length > DEV_MRU {
        return;
      }
      if pktlen != 0 {
        if length + pktlen > DEV_MRU {
          pktlen := 0;
          return;
        }
        CopyIn(pktlen, buffer, length);
        assert pktbuf[..pktlen + length] == was + t.Content();
        var all := pktbuf[..pktlen + length];
        if length < USB_MRU || LengthField(all) == length + pktlen {
          pktlen := 0;
          if LengthField(all) == |all| {
            out := [all];
          }
        } else {
          pktlen := pktlen + length;
        }
      } else {
        if length == USB_MRU && length < LengthField(buffer[..]) {
          CopyIn(0, buffer, length);
          assert pktbuf[..length] == pktbuf[0..length];
          pktlen := length;
        } else if LengthField(buffer[..]) == length {
          out := [buffer[..length]];
        }
      }
    }
  }
}
