/** Gateway addresses of the networks behind NAT devices
    (backend/internal/services/ip_service.go, nextNATLAN). */
module NatNetworks {
  import opened Wrappers

  datatype Ip = Ip(b0: nat, b1: nat, b2: nat, b3: nat)

  /** A NAT device: its own LAN gateway if it names one, and the addresses of the
      real gateways next to it, None where the text is no IPv4 address. */
  datatype NatDevice = NatDevice(lanGateway: Option<Ip>, uplinks: seq<Option<Ip>>)

  /** The third byte tried at an offset. */
  function Third(third: nat, offset: nat): nat {
    var t := (third + offset) % 255;
    if t == 0 then 1 else t
  }

  /** A gateway the search may hand out next to an uplink: any network 1 to 254
      beside it but the uplink's own, except that network 1 is always tried. */
  ghost predicate Beside(uplink: Ip, gateway: Ip) {
    && gateway == Ip(uplink.b0, uplink.b1, gateway.b2, 1) && 1 <= gateway.b2 <= 254
    && (gateway.b2 != uplink.b2 % 255 || gateway.b2 == 1)
  }

  /** No such gateway is left. */
  ghost predicate Exhausted(uplink: Option<Ip>, used: set<Ip>) {
    uplink.Some? ==> forall gateway :: Beside(uplink.value, gateway) ==> gateway in used
  }

  lemma ThirdIsBeside(uplink: Ip, offset: nat)
    requires 1 <= offset <= 254
    ensures Beside(uplink, Ip(uplink.b0, uplink.b1, Third(uplink.b2, offset), 1))
  {
    var r := uplink.b2 % 255;
    assert (uplink.b2 + offset) % 255 == (r + offset) % 255;
    assert (r + offset) % 255 == if r + offset < 255 then r + offset else r + offset - 255;
  }

  /** The offsets 1 to 254 reach every candidate. */
  lemma BesideIsThird(uplink: Ip, gateway: Ip) returns (offset: nat)
    requires Beside(uplink, gateway)
    ensures 1 <= offset <= 254 && gateway == Ip(uplink.b0, uplink.b1, Third(uplink.b2, offset), 1)
  {
    var r := uplink.b2 % 255;
    offset := if gateway.b2 > r then gateway.b2 - r else gateway.b2 + 255 - r - if gateway.b2 == r then 1 else 0;
    assert (uplink.b2 + offset) % 255 == (r + offset) % 255;
    assert (r + offset) % 255 == if r + offset < 255 then r + offset else r + offset - 255;
  }

  class Gateways {
    var used: set<Ip>

    constructor (taken: set<Ip>)
      ensures used == taken
    {
      used := taken;
    }

    /** A free gateway next to one uplink. */
    method FreeBeside(uplink: Ip) returns (gateway: Option<Ip>)
      modifies this
      ensures gateway.Some? ==>
                Beside(uplink, gateway.value) && gateway.value !in old(used) && used == old(used) + {gateway.value}
      ensures gateway.None? ==> Exhausted(Some(uplink), used) && used == old(used)
    {
      for offset := 1 to 255
        invariant used == old(used)
        invariant forall o :: 1 <= o < offset ==> Ip(uplink.b0, uplink.b1, Third(uplink.b2, o), 1) in used
      {
        var third := (uplink.b2 + offset) % 255;
        if third == 0 {
          third := 1;
        }
        var candidate := Ip(uplink.b0, uplink.b1, third, 1);
        assert candidate.b2 == Third(uplink.b2, offset);
        if candidate !in used {
          ThirdIsBeside(uplink, offset);
          used := used + {candidate};
          return Some(candidate);
        }
      }
      forall g | Beside(uplink, g)
        ensures g in used
      {
        var _ := BesideIsThird(uplink, g);
      }
      gateway := None;
    }

    /** The gateway of a NAT device: its own, or a free one next to the first uplink
        that has any left; none only when all are used up. */
    method NextNatLan(device: NatDevice) returns (gateway: Option<Ip>)
      modifies this
      ensures device.lanGateway.Some? ==> gateway == device.lanGateway && used == old(used)
      ensures device.lanGateway.None? && gateway.Some? ==>
                && gateway.value !in old(used) && used == old(used) + {gateway.value}
                && exists k ::
                     && 0 <= k < |device.uplinks| && device.uplinks[k].Some?
                     && Beside(device.uplinks[k].value, gateway.value)
                     && forall j :: 0 <= j < k ==> Exhausted(device.uplinks[j], old(used))
      ensures device.lanGateway.None? && gateway.None? ==>
                used == old(used) && forall k :: 0 <= k < |device.uplinks| ==> Exhausted(device.uplinks[k], used)
    {
      if device.lanGateway.Some? {
        return device.lanGateway;
      }
      for k := 0 to |device.uplinks|
        invariant used == old(used)
        invariant forall j :: 0 <= j < k ==> Exhausted(device.uplinks[j], used)
      {
        if device.uplinks[k].Some? {
          gateway := FreeBeside(device.uplinks[k].value);
          if gateway.Some? {
            return;
          }
        }
      }
      gateway := None;
    }

    /** Over all NAT devices, the gateways handed out are pairwise different and none
        of them was taken before. */
    method AssignAll(devices: seq<NatDevice>) returns (gateways: seq<Option<Ip>>)
      modifies this
      ensures |gateways| == |devices| && old(used) <= used
      ensures forall i :: 0 <= i < |devices| && devices[i].lanGateway.Some? ==> gateways[i] == devices[i].lanGateway
      ensures forall i :: 0 <= i < |devices| && devices[i].lanGateway.None? && gateways[i].Some? ==>
                gateways[i].value in used && gateways[i].value !in old(used)
      ensures forall i, j ::
                && 0 <= i < j < |devices| && gateways[i].Some?
                && devices[i].lanGateway.None? && devices[j].lanGateway.None?
                ==> gateways[i] != gateways[j]
    {
      gateways := [];
      for n := 0 to |devices|
        invariant |gateways| == n && old(used) <= used
        invariant forall i :: 0 <= i < n && devices[i].lanGateway.Some? ==> gateways[i] == devices[i].lanGateway
        invariant forall i :: 0 <= i < n && devices[i].lanGateway.None? && gateways[i].Some? ==>
                    gateways[i].value in used && gateways[i].value !in old(used)
        invariant forall i, j ::
                    && 0 <= i < j < n && gateways[i].Some?
                    && devices[i].lanGateway.None? && devices[j].lanGateway.None?
                    ==> gateways[i] != gateways[j]
      {
        var gateway := NextNatLan(devices[n]);
        gateways := gateways + [gateway];
      }
    }
  }
}
