/**
 * The mobile focus view of a menu card: on narrow screens a click on a card
 * mounts a copy of it in a wrapper over a dimmed overlay and locks the page
 * scroll. Only one wrapper may be active at a time; dismissing it plays a
 * closing animation and a 300 ms timer then unmounts it and unlocks the
 * scroll. The timer is modelled as a count of pending removals that the
 * caller fires one at a time.
 */
module FocusModal {
  import opened Wrappers

  /** Widest viewport, in CSS pixels, on which cards open the focus view. */
  const MobileBreakpoint := 768

  /** A `mobile-focus-wrapper` holding a copy of `card`; `closing` is its exit-animation class. */
  datatype Wrapper<Card> = Wrapper(card: Card, closing: bool)

  class MobileFocus<Card(==)> {
    /** The `activeModal` slot. */
    var activeModal: Option<Wrapper<Card>>
    /** The wrappers appended to the page body, in order. */
    var mounted: seq<Wrapper<Card>>
    /** The overlay's `active` class. */
    var overlayActive: bool
    /** `document.body.style.overflow === 'hidden'`. */
    var scrollLocked: bool
    /** 300 ms removal timers started by dismissals and not fired yet. */
    var pendingRemovals: nat

    /** The single-slot guard: the page holds exactly the active wrapper, or nothing. */
    predicate Valid()
      reads this
    {
      mounted == (if activeModal.Some? then [activeModal.value] else [])
    }

    /**
     * Set-up of the focus view: no wrapper and the overlay hidden. The body
     * overflow is whatever the page has set so far, `bodyLocked` (hidden
     * while the intro overlay is up).
     */
    constructor (bodyLocked: bool)
      ensures Valid() && activeModal == None && mounted == [] && !overlayActive && pendingRemovals == 0
      ensures scrollLocked == bodyLocked
    {
      activeModal := None;
      mounted := [];
      overlayActive := false;
      scrollLocked := bodyLocked;
      pendingRemovals := 0;
    }

    /**
     * A click on `card` with the viewport `viewportWidth` wide: on a narrow
     * screen with no active wrapper, mount a fresh wrapper for the card,
     * show the overlay and lock the scroll; otherwise nothing happens.
     */
    method CardClick(card: Card, viewportWidth: int)
      requires Valid()
      modifies this
      ensures Valid()
      ensures pendingRemovals == old(pendingRemovals)
      ensures old(viewportWidth > MobileBreakpoint || activeModal.Some?) ==> unchanged(this)
      ensures old(viewportWidth <= MobileBreakpoint && activeModal.None?) ==>
        && activeModal == Some(Wrapper(card, false))
        && mounted == [Wrapper(card, false)]
        && overlayActive && scrollLocked
    {
      if viewportWidth <= MobileBreakpoint {
        if activeModal.Some? {
          return;
        }
        var wrapper := Wrapper(card, false);
        activeModal := Some(wrapper);
        mounted := mounted + [wrapper];
        overlayActive := true;
        scrollLocked := true;
      }
    }

    /**
     * `dismissMobileFocus`, from the overlay or the close button: with an
     * active wrapper, start its closing animation, hide the overlay and
     * start a removal timer; without one, hide the overlay and unlock the
     * scroll at once.
     */
    method Dismiss()
      requires Valid()
      modifies this
      ensures Valid() && !overlayActive
      ensures old(activeModal).Some? ==>
        && activeModal == Some(old(activeModal).value.(closing := true))
        && scrollLocked == old(scrollLocked)
        && pendingRemovals == old(pendingRemovals) + 1
      ensures old(activeModal).None? ==>
        && activeModal == None && !scrollLocked && pendingRemovals == old(pendingRemovals)
    {
      if activeModal.Some? {
        var closed := activeModal.value.(closing := true);
        activeModal := Some(closed);
        mounted := [closed];
        overlayActive := false;
        pendingRemovals := pendingRemovals + 1;
      } else {
        overlayActive := false;
        scrollLocked := false;
      }
    }

    /**
     * A removal timer fires: whatever wrapper is active at that moment is
     * unmounted and the slot cleared, and the scroll is unlocked either way.
     */
    method DismissTimerFired()
      requires Valid() && pendingRemovals > 0
      modifies this
      ensures Valid()
      ensures activeModal == None && mounted == [] && !scrollLocked
      ensures overlayActive == old(overlayActive)
      ensures pendingRemovals == old(pendingRemovals) - 1
    {
      if activeModal.Some? {
        mounted := [];
        activeModal := None;
      }
      scrollLocked := false;
      pendingRemovals := pendingRemovals - 1;
    }
  }

  /**
   * Two dismissals in a row start two removal timers. A card opened between
   * the first and the second timer is removed by the second one, and the
   * page scroll is unlocked while that card was still meant to be shown.
   */
  method DoubleDismissRemovesNextCard<Card(==)>(first: Card, second: Card)
    returns (secondOpened: bool, secondStillShown: bool, scrollStillLocked: bool)
    ensures secondOpened && !secondStillShown && !scrollStillLocked
  {
    var focus := new MobileFocus<Card>(false);
    focus.CardClick(first, 400);
    focus.Dismiss();
    focus.Dismiss();
    focus.DismissTimerFired();
    focus.CardClick(second, 400);
    secondOpened := focus.activeModal == Some(Wrapper(second, false)) && focus.scrollLocked;
    focus.DismissTimerFired();
    secondStillShown := focus.activeModal.Some? || focus.mounted != [];
    scrollStillLocked := focus.scrollLocked;
  }
}
