/** The capture modes and the three marks derived from one base (internal/model/model.go). */
module Modes {

  datatype Mode = Redirect | Mixed | TProxy | Tun {
    predicate NeedsTProxy() {
      this == TProxy
    }

    predicate NeedsTunProcess() {
      this == Mixed || this == Tun
    }

    predicate CarriesUDP() {
      this != Redirect
    }

    predicate NeedsFirewallCapture() {
      this != Tun
    }

    predicate CapturesTCPViaRedirect() {
      this == Redirect || this == Mixed
    }

    predicate MarksUDPForTun() {
      this == Mixed
    }
  }

  const DEFAULT_MARK: int := 0x1e0

  datatype Parsed = Number(value: int) | Malformed

  /** The base mark, given what a 32-bit signed parse of the setting yields. */
  function MarkValue(parsed: Parsed): (m: int)
    requires parsed.Number? ==> -0x8000_0000 <= parsed.value < 0x8000_0000
    ensures 0 < m < 0x8000_0000
  {
    if parsed.Number? && parsed.value > 0 then parsed.value else DEFAULT_MARK
  }

  /** A sum as a 32-bit int holds it, which is what the derived marks are on the 32-bit
      routers this runs on. */
  function Int32(v: int): (r: int)
    ensures -0x8000_0000 <= r < 0x8000_0000
  {
    (v + 0x8000_0000) % 0x1_0000_0000 - 0x8000_0000
  }

  function MarkTProxy(base: int): int {
    Int32(base + 1)
  }

  function MarkTunUDP(base: int): int {
    Int32(base + 2)
  }

  /** The base mark is the setting when that is a positive number and 480 otherwise. The three
      marks never coincide, and all of them are numbers the tools accept exactly when the base is
      at most 2^31-3: beyond that a derived mark wraps to a negative one. */
  lemma MarksAreDistinct(parsed: Parsed)
    requires parsed.Number? ==> -0x8000_0000 <= parsed.value < 0x8000_0000
    ensures var base := MarkValue(parsed);
            && base == (if parsed.Number? && parsed.value > 0 then parsed.value else 480)
            && base != MarkTProxy(base) && base != MarkTunUDP(base) && MarkTProxy(base) != MarkTunUDP(base)
            && (MarkTProxy(base) > 0 && MarkTunUDP(base) > 0 <==> base <= 0x7FFF_FFFD)
            && (base <= 0x7FFF_FFFD ==> MarkTProxy(base) == base + 1 && MarkTunUDP(base) == base + 2)
  {
  }
}
