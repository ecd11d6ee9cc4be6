/**
 * The desktop menu carousel: the children of the menu track form a
 * sequence of cards, rotated by one position per "next" or "prev" click
 * to fake an endless loop, with the `spotlight` class on the centre card.
 */
module Carousel {

  /** A child of the menu track: an opaque card and whether it carries the `spotlight` class. */
  datatype Slot<Card> = Slot(card: Card, spotlight: bool)

  /** The cards of a track, without their classes. */
  function Cards<Card>(track: seq<Slot<Card>>): (r: seq<Card>)
    ensures |r| == |track|
    ensures forall i :: 0 <= i < |track| ==> r[i] == track[i].card
  {
    seq(|track|, i requires 0 <= i < |track| => track[i].card)
  }

  /** The card at index `t` carries the spotlight class and no other card does (none at all when `t` is out of range). */
  ghost predicate LitOnly<Card>(track: seq<Slot<Card>>, t: int)
  {
    forall i :: 0 <= i < |track| ==> (track[i].spotlight <==> i == t)
  }

  /** `appendChild(firstElementChild)`: the first card moves to the end. */
  function RotateLeft<T>(s: seq<T>): (r: seq<T>)
    ensures |r| == |s|
    ensures multiset(r) == multiset(s)
    ensures forall i :: 0 <= i < |s| - 1 ==> r[i] == s[i + 1]
    ensures |s| > 0 ==> r[|s| - 1] == s[0]
  {
    if |s| == 0 then s
    else
      assert s == [s[0]] + s[1..];
      s[1..] + [s[0]]
  }

  /** `prepend(lastElementChild)`: the last card moves to the front. */
  function RotateRight<T>(s: seq<T>): (r: seq<T>)
    ensures |r| == |s|
    ensures multiset(r) == multiset(s)
    ensures |s| > 0 ==> r[0] == s[|s| - 1]
    ensures forall i :: 1 <= i < |s| ==> r[i] == s[i - 1]
  {
    if |s| == 0 then s
    else
      assert s == s[..|s| - 1] + [s[|s| - 1]];
      [s[|s| - 1]] + s[..|s| - 1]
  }

  /**
   * `updateSpotlight(t)`: the card at index `t` carries the spotlight and
   * no other does; with `t` out of range no card does. The cards stay put.
   */
  function Spotlight<Card>(track: seq<Slot<Card>>, t: int): (r: seq<Slot<Card>>)
    ensures Cards(r) == Cards(track)
    ensures LitOnly(r, t)
  {
    seq(|track|, i requires 0 <= i < |track| => Slot(track[i].card, i == t))
  }

  /** The rotation of `s` that starts at its `k`-th element. */
  function Rotation<T>(s: seq<T>, k: nat): seq<T>
    requires k <= |s|
  {
    s[k..] + s[..k]
  }

  /**
   * The track as initialisation leaves it: last card moved to the front,
   * spotlight on slot 1. Load does what a completed "prev" does, without the
   * transition in between.
   */
  function Initial<Card>(markup: seq<Slot<Card>>): (r: seq<Slot<Card>>)
    ensures |r| == |markup|
    ensures |markup| > 0 ==> r[0] == Slot(markup[|markup| - 1].card, false)
    ensures |markup| > 1 ==> r[1] == Slot(markup[0].card, true)
  {
    Retreat(markup)
  }

  /** A completed "next": spotlight on slot 2, then (after the transition) rotate left and spotlight slot 1. */
  function Advance<Card>(track: seq<Slot<Card>>): (r: seq<Slot<Card>>)
    ensures |r| == |track|
    ensures |track| > 2 ==> r[1] == Slot(track[2].card, true)
    ensures |track| > 0 ==> r[|r| - 1].card == track[0].card
  {
    Spotlight(RotateLeft(Spotlight(track, 2)), 1)
  }

  /** A completed "prev": rotate right and spotlight slot 1, then spotlight slot 1 again after the transition. */
  function Retreat<Card>(track: seq<Slot<Card>>): (r: seq<Slot<Card>>)
    ensures |r| == |track|
    ensures |track| > 0 ==> r[0] == Slot(track[|track| - 1].card, false)
    ensures |track| > 1 ==> r[1] == Slot(track[0].card, true)
  {
    Spotlight(Spotlight(RotateRight(track), 1), 1)
  }

  /** The spotlight is a class of the card node, so it travels with its card under both rotations. */
  lemma RotationsCarryCards<Card>(track: seq<Slot<Card>>)
    ensures Cards(RotateLeft(track)) == RotateLeft(Cards(track))
    ensures Cards(RotateRight(track)) == RotateRight(Cards(track))
  {
  }

  /** The outcome of `updateSpotlight` depends on the cards only, never on the classes they had. */
  lemma SpotlightForgetsClasses<Card>(a: seq<Slot<Card>>, b: seq<Slot<Card>>, t: int)
    requires Cards(a) == Cards(b)
    ensures Spotlight(a, t) == Spotlight(b, t)
  {
    assert |a| == |Cards(a)| == |b|;
    forall i | 0 <= i < |a| ensures Spotlight(a, t)[i] == Spotlight(b, t)[i] {
      assert a[i].card == Cards(a)[i] == b[i].card;
    }
  }

  /** Spotlighting an index that is already the only lit one changes nothing. */
  lemma SpotlightSettled<Card>(track: seq<Slot<Card>>, t: int)
    requires LitOnly(track, t)
    ensures Spotlight(track, t) == track
  {
    forall i | 0 <= i < |track| ensures Spotlight(track, t)[i] == track[i] {
    }
  }

  /** Left rotation advances the starting point of a rotation by one, wrapping at the end. */
  lemma {:induction false} RotateLeftOfRotation<T>(s: seq<T>, k: nat)
    requires k < |s|
    ensures RotateLeft(Rotation(s, k)) == Rotation(s, if k + 1 == |s| then 0 else k + 1)
  {
    var r := Rotation(s, k);
    assert r[0] == s[k];
    if k + 1 == |s| {
      assert RotateLeft(r) == r[1..] + [r[0]];
      assert r[1..] == s[..k];
      assert s[..k] + [s[k]] == s[..k + 1] == s;
    } else {
      assert RotateLeft(r) == r[1..] + [r[0]];
      assert r[1..] == s[k + 1..] + s[..k];
      assert s[..k] + [s[k]] == s[..k + 1];
    }
  }

  /** Right rotation moves the starting point of a rotation back by one, wrapping at the front. */
  lemma {:induction false} RotateRightOfRotation<T>(s: seq<T>, k: nat)
    requires k < |s|
    ensures RotateRight(Rotation(s, k)) == Rotation(s, if k == 0 then |s| - 1 else k - 1)
  {
    var r := Rotation(s, k);
    var n := |s|;
    assert RotateRight(r) == [r[n - 1]] + r[..n - 1];
    if k == 0 {
      assert r == s;
      assert s[n - 1..] == [s[n - 1]];
    } else {
      assert r[n - 1] == s[k - 1];
      assert r[..n - 1] == s[k..] + s[..k - 1];
      assert s[k - 1..] == [s[k - 1]] + s[k..];
    }
  }

  /**
   * The card lit before a left rotation is lit after it, one slot further
   * left: in particular the card spotlighted at slot 2 when "next" starts is
   * the card at slot 1 once the track has been rotated.
   */
  lemma SpotlightFollowsCard<Card>(track: seq<Slot<Card>>, k: int)
    requires 1 <= k < |track|
    ensures RotateLeft(Spotlight(track, k)) == Spotlight(RotateLeft(track), k - 1)
  {
    var n := |track|;
    var a := RotateLeft(Spotlight(track, k));
    var b := Spotlight(RotateLeft(track), k - 1);
    forall i | 0 <= i < n ensures a[i] == b[i] {
      var j := if i + 1 == n then 0 else i + 1;
      assert a[i] == Spotlight(track, k)[j];
      assert RotateLeft(track)[i] == track[j];
      assert j == k <==> i == k - 1;
    }
  }

  /** With at least three cards, the final `updateSpotlight(1)` of "next" changes nothing: the lit card stays lit. */
  lemma AdvanceKeepsSpotlightedCard<Card>(track: seq<Slot<Card>>)
    requires |track| >= 3
    ensures Advance(track) == RotateLeft(Spotlight(track, 2))
  {
    SpotlightFollowsCard(track, 2);
    var r := RotateLeft(Spotlight(track, 2));
    SpotlightSettled(r, 1);
  }

  /** Rotating left and then right, or right and then left, gives back the sequence. */
  lemma RotationsCancel<T>(s: seq<T>)
    ensures RotateRight(RotateLeft(s)) == s
    ensures RotateLeft(RotateRight(s)) == s
  {
    if |s| > 0 {
      assert s == [s[0]] + s[1..];
      assert s == s[..|s| - 1] + [s[|s| - 1]];
    }
  }

  /** Two tracks with the same cards and the same single lit slot are the same track. */
  lemma TrackDeterminedByCards<Card>(a: seq<Slot<Card>>, b: seq<Slot<Card>>, t: int)
    requires Cards(a) == Cards(b) && LitOnly(a, t) && LitOnly(b, t)
    ensures a == b
  {
    assert |a| == |Cards(a)| == |b|;
    forall i | 0 <= i < |a| ensures a[i] == b[i] {
      assert a[i].card == Cards(a)[i] == b[i].card;
    }
  }

  /** A completed "next" rotates the cards left and leaves slot 1 lit; a completed "prev" rotates them right. */
  lemma CompletedMovesRotate<Card>(track: seq<Slot<Card>>)
    ensures Cards(Advance(track)) == RotateLeft(Cards(track)) && LitOnly(Advance(track), 1)
    ensures Cards(Retreat(track)) == RotateRight(Cards(track)) && LitOnly(Retreat(track), 1)
    ensures Cards(Initial(track)) == RotateRight(Cards(track)) && LitOnly(Initial(track), 1)
  {
    RotationsCarryCards(Spotlight(track, 2));
    RotationsCarryCards(track);
  }

  /** A completed "next" followed by a completed "prev" restores a settled track, and so does the reverse order. */
  lemma AdvanceRetreatRoundTrip<Card>(track: seq<Slot<Card>>)
    requires LitOnly(track, 1)
    ensures Retreat(Advance(track)) == track
    ensures Advance(Retreat(track)) == track
  {
    CompletedMovesRotate(track);
    CompletedMovesRotate(Advance(track));
    CompletedMovesRotate(Retreat(track));
    RotationsCancel(Cards(track));
    TrackDeterminedByCards(Retreat(Advance(track)), track, 1);
    TrackDeterminedByCards(Advance(Retreat(track)), track, 1);
  }

  /** Rotating the track left moves the offset of its card order one step forward. */
  lemma {:induction false} NextOffset<Card>(track: seq<Slot<Card>>, original: seq<Card>, shift: nat)
    requires shift < |original| && Cards(track) == Rotation(original, shift)
    ensures Cards(RotateLeft(track)) == Rotation(original, if shift + 1 == |original| then 0 else shift + 1)
  {
    RotationsCarryCards(track);
    RotateLeftOfRotation(original, shift);
  }

  /** Rotating the track right moves the offset of its card order one step back. */
  lemma {:induction false} PrevOffset<Card>(track: seq<Slot<Card>>, original: seq<Card>, shift: nat)
    requires shift < |original| && Cards(track) == Rotation(original, shift)
    ensures Cards(RotateRight(track)) == Rotation(original, if shift == 0 then |original| - 1 else shift - 1)
  {
    RotationsCarryCards(track);
    RotateRightOfRotation(original, shift);
  }

  /** Moving the last card to the front starts the card order at the last card of the markup. */
  lemma LoadOffset<Card>(markup: seq<Slot<Card>>)
    requires |markup| > 0
    ensures Cards(RotateRight(markup)) == Rotation(Cards(markup), |markup| - 1)
  {
    var c := Cards(markup);
    assert c == Rotation(c, 0);
    PrevOffset(markup, c, 0);
  }

  /** The pending 400 ms timer of the carousel, if any. */
  datatype Timer = NoTimer | NextTimer | PrevTimer

  class MenuCarousel<Card> {
    /** The children of the menu track, in document order. */
    var track: seq<Slot<Card>>
    /** Set when a click starts an animation; cleared by that animation's timer. */
    var isAnimating: bool
    /** Which handler's timer is scheduled. */
    var pending: Timer

    /** The card order of the markup, and how far the track is rotated from it. */
    ghost var original: seq<Card>
    ghost var shift: nat

    ghost predicate Valid()
      reads this
    {
      && |original| == |track|
      && shift <= |original|
      && (|original| > 0 ==> shift < |original|)
      && Cards(track) == Rotation(original, shift)
      && (pending != NoTimer ==> isAnimating)
      // the only way to leave the flag set without a timer: "next" on an empty track
      && (isAnimating && pending == NoTimer ==> track == [])
      && (!isAnimating ==> LitOnly(track, 1))
    }

    /** Page-ready initialisation: the last card moves to the front and slot 1 is spotlighted. */
    constructor (markup: seq<Slot<Card>>)
      ensures Valid()
      ensures original == Cards(markup)
      ensures track == Initial(markup)
      ensures !isAnimating && pending == NoTimer
    {
      isAnimating := false;
      pending := NoTimer;
      original := Cards(markup);
      if |markup| > 0 {
        LoadOffset(markup);
        track := RotateRight(markup);
        shift := |markup| - 1;
      } else {
        track := markup;
        shift := 0;
      }
      new;
      if |markup| > 0 {
        UpdateSpotlight(1);
      }
      UpdateSpotlight(1);
    }

    /** `updateSpotlight(t)`: walk the cards, adding the class at index `t` and removing it elsewhere. */
    method UpdateSpotlight(t: int)
      modifies this`track
      ensures track == Spotlight(old(track), t)
      ensures isAnimating == old(isAnimating) && pending == old(pending)
      ensures original == old(original) && shift == old(shift)
    {
      var i := 0;
      while i < |track|
        invariant 0 <= i <= |track| == |old(track)|
        invariant forall j :: 0 <= j < i ==> track[j] == Slot(old(track)[j].card, j == t)
        invariant forall j :: i <= j < |track| ==> track[j] == old(track)[j]
      {
        track := track[i := Slot(track[i].card, i == t)];
        i := i + 1;
      }
      assert track == Spotlight(old(track), t);
    }

    /** Resize handler: re-spotlight slot 1, animation or not. */
    method Resize()
      requires Valid()
      modifies this
      ensures Valid() && original == old(original)
      ensures track == Spotlight(old(track), 1)
      ensures isAnimating == old(isAnimating) && pending == old(pending)
    {
      UpdateSpotlight(1);
    }

    /** "Next" click: ignored while animating; otherwise lights slot 2 and starts the transition. */
    method NextClick()
      requires Valid()
      modifies this
      ensures Valid() && original == old(original)
      ensures old(isAnimating) ==> unchanged(this)
      ensures !old(isAnimating) ==>
        isAnimating && pending == NextTimer && track == Spotlight(old(track), 2)
    {
      if isAnimating {
        return;
      }
      isAnimating := true;
      UpdateSpotlight(2);
      pending := NextTimer;
    }

    /**
     * The 400 ms timer of "next": the first card moves to the end and slot 1
     * is spotlighted, then the flag is cleared. On an empty track
     * `appendChild(null)` throws before the flag is cleared, so it stays set.
     */
    method NextTimerFired()
      requires Valid() && pending == NextTimer
      modifies this
      ensures Valid() && original == old(original)
      ensures pending == NoTimer
      ensures old(track) == [] ==> track == [] && isAnimating
      ensures old(track) != [] ==> track == Spotlight(RotateLeft(old(track)), 1) && !isAnimating
    {
      pending := NoTimer;
      if |track| == 0 {
        return;
      }
      NextOffset(track, original, shift);
      track := RotateLeft(track);
      shift := if shift + 1 == |original| then 0 else shift + 1;
      UpdateSpotlight(1);
      isAnimating := false;
    }

    /** "Prev" click: ignored while animating; otherwise the last card moves to the front at once and slot 1 is spotlighted. */
    method PrevClick()
      requires Valid()
      modifies this
      ensures Valid() && original == old(original)
      ensures old(isAnimating) ==> unchanged(this)
      ensures !old(isAnimating) ==>
        isAnimating && pending == PrevTimer && track == Spotlight(RotateRight(old(track)), 1)
    {
      if isAnimating {
        return;
      }
      isAnimating := true;
      if |track| > 0 {
        PrevOffset(track, original, shift);
        shift := if shift == 0 then |original| - 1 else shift - 1;
      }
      track := RotateRight(track);
      UpdateSpotlight(1);
      pending := PrevTimer;
    }

    /** The 400 ms timer of "prev": spotlight slot 1 again and clear the flag. */
    method PrevTimerFired()
      requires Valid() && pending == PrevTimer
      modifies this
      ensures Valid() && original == old(original)
      ensures track == Spotlight(old(track), 1)
      ensures !isAnimating && pending == NoTimer
    {
      UpdateSpotlight(1);
      isAnimating := false;
      pending := NoTimer;
    }
  }

  /** Five cards A..E: after load the visible window is [E, A, B] with A lit. */
  lemma ScenarioLoad()
    ensures Initial([Slot('A', false), Slot('B', false), Slot('C', false), Slot('D', false), Slot('E', false)])
         == [Slot('E', false), Slot('A', true), Slot('B', false), Slot('C', false), Slot('D', false)]
  {
  }

  /** "Next" from there gives the window [A, B, C] with B lit, and once more [B, C, D] with C lit. */
  lemma ScenarioNextTwice()
    ensures var t1 := Advance([Slot('E', false), Slot('A', true), Slot('B', false), Slot('C', false), Slot('D', false)]);
      && t1 == [Slot('A', false), Slot('B', true), Slot('C', false), Slot('D', false), Slot('E', false)]
      && Advance(t1) == [Slot('B', false), Slot('C', true), Slot('D', false), Slot('E', false), Slot('A', false)]
  {
    var t1 := Advance([Slot('E', false), Slot('A', true), Slot('B', false), Slot('C', false), Slot('D', false)]);
    assert t1 == [Slot('A', false), Slot('B', true), Slot('C', false), Slot('D', false), Slot('E', false)];
  }
}
