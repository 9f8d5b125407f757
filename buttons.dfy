/**
 * The GPIO interrupt handler for the two push buttons. Button B toggles
 * the alerts gate, button A flips the page selector; each keeps its own
 * timestamp of the last press it accepted and ignores presses that come
 * no more than 200 ms after it. The handler reads the microsecond clock;
 * here the clock value is a parameter.
 */
module Buttons {
  import opened Config

  const ButtonAPin: nat := 5
  const ButtonBPin: nat := 6

  /** The debounce window in microseconds. */
  const DebounceUs: nat := 200000

  const TwoTo64: int := 0x1_0000_0000_0000_0000

  /** A value of the 64-bit microsecond clock. */
  type Micros = x: int | 0 <= x < TwoTo64

  /** `now - last` computed in `uint64_t`, which wraps modulo 2^64. */
  function Elapsed(now: Micros, last: Micros): (e: Micros)
    ensures last <= now ==> e == now - last
    ensures now < last ==> e == now - last + TwoTo64
  {
    (now - last) % TwoTo64
  }

  /** A press at `now` is accepted when strictly more than the window has passed since `last`. */
  predicate Accepts(now: Micros, last: Micros) {
    Elapsed(now, last) > DebounceUs
  }

  /** A press no later than the window after an accepted press is ignored. */
  lemma BounceIgnored(accepted: Micros, now: Micros)
    requires accepted <= now <= accepted + DebounceUs
    ensures !Accepts(now, accepted)
  {
  }

  /** A press strictly after the window is accepted. */
  lemma LatePressAccepted(accepted: Micros, now: Micros)
    requires accepted + DebounceUs < now
    ensures Accepts(now, accepted)
  {
  }

  /** Flipping the page selector (`1 - page`) keeps it a page number. */
  function TogglePage(page: int): (p: int)
    ensures (page == GraphsPage || page == LimitsPage) ==> (p == GraphsPage || p == LimitsPage) && p != page
  {
    1 - page
  }

  /** The per-button timestamps the handler keeps in its two static locals. */
  class Debouncer {
    var lastAlertsPress: Micros
    var lastPagePress: Micros

    constructor ()
      ensures lastAlertsPress == 0 && lastPagePress == 0
    {
      lastAlertsPress, lastPagePress := 0, 0;
    }

    /** `gpio_irq_handler` for a falling edge on pin `gpio` at clock value `now`. */
    method GpioIrq(store: Store, gpio: nat, now: Micros)
      requires store.Valid()
      modifies this, store`alertsEnabled, store`currentPage
      ensures store.Valid()
      ensures gpio == ButtonBPin && Accepts(now, old(lastAlertsPress)) ==>
                store.alertsEnabled == !old(store.alertsEnabled) && lastAlertsPress == now
      ensures !(gpio == ButtonBPin && Accepts(now, old(lastAlertsPress))) ==>
                store.alertsEnabled == old(store.alertsEnabled) && lastAlertsPress == old(lastAlertsPress)
      ensures gpio == ButtonAPin && Accepts(now, old(lastPagePress)) ==>
                store.currentPage == TogglePage(old(store.currentPage)) && lastPagePress == now
      ensures !(gpio == ButtonAPin && Accepts(now, old(lastPagePress))) ==>
                store.currentPage == old(store.currentPage) && lastPagePress == old(lastPagePress)
    {
      if gpio == ButtonBPin {
        if Elapsed(now, lastAlertsPress) > DebounceUs {
          store.alertsEnabled := !store.alertsEnabled;
          lastAlertsPress := now;
        }
      }
      if gpio == ButtonAPin {
        if Elapsed(now, lastPagePress) > DebounceUs {
          store.currentPage := TogglePage(store.currentPage);
          lastPagePress := now;
        }
      }
    }
  }

  /**
   * Two presses of the same button in one window change its state once:
   * after the second press the alerts gate holds the value the first one
   * gave it.
   */
  method DoublePress(store: Store, buttons: Debouncer, t1: Micros, t2: Micros)
    requires store.Valid()
    requires Accepts(t1, buttons.lastAlertsPress)
    requires t1 <= t2 <= t1 + DebounceUs
    modifies buttons, store`alertsEnabled, store`currentPage
    ensures store.alertsEnabled == !old(store.alertsEnabled)
    ensures store.currentPage == old(store.currentPage)
  {
    buttons.GpioIrq(store, ButtonBPin, t1);
    BounceIgnored(t1, t2);
    buttons.GpioIrq(store, ButtonBPin, t2);
  }
}
