/** Device types, stored details and the handles power cables plug into
    (backend/internal/wiring/power.go). */
module Wiring {
  import opened Text
  import opened Wrappers

  datatype NodeType =
    | Router | Switch | AccessPoint | Modem | Firewall
    | Server | ServerV2 | Vps | Pc | MiniPc | Sbc | Nas | Iot
    | Ups | Pdu | PowerOutlet | Rack
    | Disk | Gpu | Cpu | Hba | Pcie
    | Console | LanTable
    | UnknownType(name: string)

  /** The stored details of a device: the two counts power wiring reads, as whole
      numbers, or a document that cannot be decoded. */
  datatype Details = Unreadable | Details(psuCount: Option<int>, outlets: Option<int>)

  const MAX_POWER_INPUTS := 4
  const MAX_POWER_OUTPUTS := 48
  const POWER_IN_PREFIX := "pwr-in-"
  const POWER_OUT_PREFIX := "pwr-out-"

  predicate IsPowerSource(kind: NodeType) {
    kind.Ups? || kind.Pdu? || kind.PowerOutlet?
  }

  predicate TakesNoPower(kind: NodeType) {
    || kind.PowerOutlet? || kind.Rack? || kind.Disk? || kind.Gpu?
    || kind.Cpu? || kind.Hba? || kind.Pcie? || kind.Vps?
  }

  function Clamp(value: int, low: int, high: int): int
    requires low <= high
  {
    if value < low then low else if value > high then high else value
  }

  function CountOr(count: Option<int>, fallback: int): int {
    if count.Some? then count.value else fallback
  }

  function PowerInputCount(kind: NodeType, details: Details): (count: nat) {
    if TakesNoPower(kind) then 0
    else Clamp(if details.Unreadable? then 1 else CountOr(details.psuCount, 1), 0, MAX_POWER_INPUTS)
  }

  function DefaultOutlets(kind: NodeType): nat
    requires IsPowerSource(kind)
  {
    if kind.Ups? then 6 else if kind.Pdu? then 8 else 2
  }

  function PowerOutputCount(kind: NodeType, details: Details): (count: nat) {
    if !IsPowerSource(kind) then 0
    else
      var fallback := DefaultOutlets(kind);
      Clamp(if details.Unreadable? then fallback else CountOr(details.outlets, fallback), 1, MAX_POWER_OUTPUTS)
  }

  // ---- handles ----

  predicate AllDigits(text: string) {
    forall i :: 0 <= i < |text| ==> '0' <= text[i] <= '9'
  }

  function Decimal(text: string): nat
    requires AllDigits(text)
  {
    if text == "" then 0
    else Decimal(text[..|text| - 1]) * 10 + (text[|text| - 1] as int - '0' as int)
  }

  /** A decimal index without sign or leading zeros and of at most six digits, -1 otherwise. */
  function PlainIndex(text: string): int {
    if text == "" || (|text| > 1 && text[0] == '0') || |text| > 6 || !AllDigits(text) then -1
    else Decimal(text)
  }

  /** N for a handle "<prefix>N", -1 for any other handle. */
  function PowerHandleIndex(handle: string, prefix: string): int {
    if prefix <= handle then PlainIndex(handle[|prefix|..]) else -1
  }

  function PowerHandle(prefix: string, n: nat): string {
    prefix + Itoa(n)
  }

  lemma {:induction false} ItoaReadsBack(n: nat)
    ensures AllDigits(Itoa(n))
    ensures Decimal(Itoa(n)) == n
    ensures n > 0 ==> Itoa(n)[0] != '0'
    ensures |Itoa(n)| > 1 ==> n > 0
  {
    if n >= 10 {
      ItoaReadsBack(n / 10);
      assert Itoa(n)[..|Itoa(n)| - 1] == Itoa(n / 10);
    }
  }

  lemma {:induction false} ItoaLength(n: nat, digits: nat, bound: nat)
    requires digits > 0 && n < bound && bound == Pow10(digits)
    ensures 0 < |Itoa(n)| <= digits
  {
    if n >= 10 {
      ItoaLength(n / 10, digits - 1, Pow10(digits - 1));
    }
  }

  function Pow10(k: nat): nat { if k == 0 then 1 else 10 * Pow10(k - 1) }

  /** Reading a written handle gives its index back. */
  lemma HandleRoundTrip(prefix: string, n: nat)
    requires n < 1_000_000
    ensures PowerHandleIndex(PowerHandle(prefix, n), prefix) == n
  {
    assert Pow10(6) == 1_000_000;
    ItoaReadsBack(n);
    ItoaLength(n, 6, 1_000_000);
    assert PowerHandle(prefix, n)[|prefix|..] == Itoa(n);
  }

  lemma {:induction false} DecimalWritesBack(text: string)
    requires text != "" && (|text| > 1 ==> text[0] != '0') && AllDigits(text)
    ensures Itoa(Decimal(text)) == text
    ensures text[0] != '0' ==> Decimal(text) > 0
  {
    var front, last := text[..|text| - 1], text[|text| - 1];
    if |text| == 1 {
      assert front == "" && Decimal(front) == 0;
      assert text == [last];
    } else {
      DecimalWritesBack(front);
      assert text == front + [last];
    }
  }

  /** An index belongs to one handle only: there is no second way to write it. */
  lemma HandleDetermined(prefix: string, handle: string)
    requires PowerHandleIndex(handle, prefix) >= 0
    ensures handle == PowerHandle(prefix, PowerHandleIndex(handle, prefix))
  {
    DecimalWritesBack(handle[|prefix|..]);
    assert handle == prefix + handle[|prefix|..];
  }
}
