/**
 * The scroll handler: the navbar background, the active nav link, the
 * `visible` class of each section, and the two edge-triggered blocks (the
 * hero tagline and the gallery title) that run their enter or exit work
 * only when their visibility flips. Geometry comes in as a sample of
 * numbers instead of being read from the layout.
 */
module Visibility {
  import opened Wrappers

  /** A bounding box as `getBoundingClientRect` reports it, relative to the viewport. */
  datatype Rect = Rect(top: real, bottom: real)

  /** A `section[id]` with its `offsetTop`. */
  datatype SectionPos = SectionPos(id: string, offsetTop: real)

  /** Everything one run of the scroll handler reads from the page. */
  datatype Sample = Sample(
    scrollTop: real,
    windowHeight: real,
    hero: Rect,
    menu: Rect,
    gallery: Rect,
    story: Rect,
    location: Rect,
    contact: Rect,
    sections: seq<SectionPos>)

  /** The enter or exit work the edge-triggered blocks and the intro overlay start. */
  datatype Effect =
    | EnterHero          // re-wrap and animate the tagline (delays 100 and 400), show button and stats
    | ExitHero           // exitWords on the tagline, hide button and stats
    | EnterGalleryTitle  // wrap and animate the two title lines (delays 0 and 400), show the binoculars
    | ExitGalleryTitle   // exitWords on the two title lines, hide the binoculars
    | RevealIntro        // first tagline reveal after the intro overlay (delays 200 and 800)

  /** The hero counts as visible while its top has not scrolled more than 15% of the viewport height past the top edge. */
  predicate HeroVisible(top: real, windowHeight: real): (visible: bool)
    ensures windowHeight > 0.0 && top >= 0.0 ==> visible
    ensures windowHeight >= 0.0 && top <= -windowHeight ==> !visible
  {
    top > -windowHeight * 0.15
  }

  /** A section is shown while its top is above `enter` and its bottom below `exit`, both fractions of the viewport height. */
  predicate InBand(r: Rect, windowHeight: real, enter: real, exit: real): (shown: bool)
    ensures r.bottom <= windowHeight * exit ==> !shown
    ensures r.top >= windowHeight * enter ==> !shown
    ensures windowHeight * exit < windowHeight * enter && r.top <= windowHeight * exit && windowHeight * enter <= r.bottom ==> shown
  {
    Band(r, windowHeight * enter, windowHeight * exit)
  }

  /** The box reaches above the line `enterLine` and below the line `exitLine`, both in viewport pixels. */
  predicate Band(r: Rect, enterLine: real, exitLine: real): (overlaps: bool)
    ensures exitLine < enterLine && r.top <= exitLine && enterLine <= r.bottom ==> overlaps
  {
    r.top < enterLine && r.bottom > exitLine
  }

  /** Vertical position `y` lies within the box. */
  predicate Covers(r: Rect, y: real)
  {
    r.top <= y <= r.bottom
  }

  /**
   * For a box with its top above its bottom and an exit line `lo` above
   * the enter line `up`, the band test holds exactly when some point of the
   * box lies strictly between the two lines. `InBand` is this test with the
   * lines at `windowHeight * exit` and `windowHeight * enter`.
   */
  lemma InBandIffOverlap(r: Rect, up: real, lo: real)
    requires r.top <= r.bottom && lo < up
    ensures Band(r, up, lo) <==> exists y: real :: lo < y < up && Covers(r, y)
  {
    if Band(r, up, lo) {
      var hi := if r.bottom < up then r.bottom else up;
      var y := if r.top > lo then r.top else (lo + hi) / 2.0;
      assert lo < y < up && Covers(r, y);
    }
  }

  /** The menu's band (65% / 35%) lies inside the other sections' band (75% / 25%): a shown menu would be shown by the wider rule too. */
  lemma MenuBandIsNarrower(r: Rect, h: real)
    requires h >= 0.0
    ensures InBand(r, h, 0.65, 0.35) ==> InBand(r, h, 0.75, 0.25)
  {
  }

  /** The gallery title's band (70% / 20%). */
  predicate GalleryTitleVisible(s: Sample): (visible: bool)
    ensures s.windowHeight > 0.0 && s.gallery.top <= s.windowHeight * 0.2 && s.windowHeight * 0.7 <= s.gallery.bottom ==> visible
    ensures s.gallery.bottom <= s.windowHeight * 0.2 || s.gallery.top >= s.windowHeight * 0.7 ==> !visible
  {
    InBand(s.gallery, s.windowHeight, 0.7, 0.2)
  }

  /** The index of the last section whose top, less 200 px, is at or above the scroll position. */
  function LastReached(sections: seq<SectionPos>, scrollTop: real): (r: Option<nat>)
    ensures r.None? <==> forall k :: 0 <= k < |sections| ==> scrollTop < sections[k].offsetTop - 200.0
    ensures r.Some? ==>
      && r.value < |sections|
      && scrollTop >= sections[r.value].offsetTop - 200.0
      && forall k :: r.value < k < |sections| ==> scrollTop < sections[k].offsetTop - 200.0
  {
    if |sections| == 0 then None
    else if scrollTop >= sections[|sections| - 1].offsetTop - 200.0 then Some(|sections| - 1)
    else LastReached(sections[..|sections| - 1], scrollTop)
  }

  /** The `data-target` the active nav link must carry: the id of the last reached section, or empty. */
  function ActiveTarget(sections: seq<SectionPos>, scrollTop: real): (target: string)
    ensures (forall k :: 0 <= k < |sections| ==> scrollTop < sections[k].offsetTop - 200.0) ==> target == ""
    ensures target != "" ==>
      exists k :: 0 <= k < |sections| && sections[k].id == target && scrollTop >= sections[k].offsetTop - 200.0
  {
    match LastReached(sections, scrollTop)
    case None => ""
    case Some(k) => sections[k].id
  }

  /** The sections loop of `handleScroll`: every reached section overwrites `current`. */
  method FindActiveTarget(sections: seq<SectionPos>, scrollTop: real) returns (current: string)
    ensures current == ActiveTarget(sections, scrollTop)
  {
    current := "";
    ghost var last: Option<nat> := None;
    var k := 0;
    while k < |sections|
      invariant 0 <= k <= |sections|
      invariant last == LastReached(sections[..k], scrollTop)
      invariant current == match last case None => "" case Some(j) => sections[j].id
    {
      assert sections[..k + 1][..k] == sections[..k];
      if scrollTop >= sections[k].offsetTop - 200.0 {
        current := sections[k].id;
        last := Some(k);
      }
      k := k + 1;
    }
    assert sections[..k] == sections;
  }

  /** The classes the handler rewrites on every run, whatever it saw before. */
  datatype Classes = Classes(
    navbarScrolled: bool,
    activeTarget: string,
    menuVisible: bool,
    galleryVisible: bool,
    storyVisible: bool,
    locationVisible: bool,
    contactVisible: bool)

  /** What the scroll handler keeps between runs: the overlay state, the two edge-triggered flags, and the classes. */
  datatype View = View(
    overlayHidden: bool,
    heroSectionVisible: bool,
    taglinesVisible: bool,
    galleryTitleVisible: bool,
    classes: Classes)

  /** The outcome of the hero block: the stored visibility, whether the tagline is shown, the work started. */
  datatype HeroOutcome = HeroOutcome(heroSectionVisible: bool, taglinesVisible: bool, effects: seq<Effect>)

  /**
   * The hero block: it runs only once the intro overlay is hidden and only
   * when the computed visibility differs from the stored one; it then exits
   * the tagline if it is shown, or enters it if it is not.
   */
  function HeroEdge(overlayHidden: bool, wasVisible: bool, taglines: bool, isVisible: bool): (r: HeroOutcome)
    ensures r.heroSectionVisible == if overlayHidden then isVisible else wasVisible
    ensures |r.effects| <= 1 && RevealIntro !in r.effects
    ensures EnterGalleryTitle !in r.effects && ExitGalleryTitle !in r.effects
    ensures EnterHero in r.effects <==> overlayHidden && isVisible && !wasVisible && !taglines
    ensures ExitHero in r.effects <==> overlayHidden && !isVisible && wasVisible && taglines
    ensures r.taglinesVisible == if overlayHidden && isVisible != wasVisible then isVisible else taglines
  {
    if overlayHidden && isVisible != wasVisible then
      if !isVisible then
        HeroOutcome(false, false, if taglines then [ExitHero] else [])
      else
        HeroOutcome(true, true, if !taglines then [EnterHero] else [])
    else
      HeroOutcome(wasVisible, taglines, [])
  }

  /** The gallery-title block: enter work when it becomes visible, exit work when it stops being visible, nothing otherwise. */
  function TitleEdge(wasVisible: bool, isVisible: bool): (r: seq<Effect>)
    ensures |r| <= 1 && RevealIntro !in r && EnterHero !in r && ExitHero !in r
    ensures EnterGalleryTitle in r <==> isVisible && !wasVisible
    ensures ExitGalleryTitle in r <==> !isVisible && wasVisible
  {
    if isVisible == wasVisible then []
    else if isVisible then [EnterGalleryTitle]
    else [ExitGalleryTitle]
  }

  /** One run of `handleScroll` on the view `v`: the new view and the work started. */
  function Scroll(v: View, s: Sample): (r: (View, seq<Effect>))
    ensures r.0.overlayHidden == v.overlayHidden
    ensures r.0.galleryTitleVisible == GalleryTitleVisible(s)
    ensures RevealIntro !in r.1 && |r.1| <= 2
  {
    var hero := HeroEdge(v.overlayHidden, v.heroSectionVisible, v.taglinesVisible, HeroVisible(s.hero.top, s.windowHeight));
    var title := GalleryTitleVisible(s);
    var classes := Classes(
      s.scrollTop > 50.0,
      ActiveTarget(s.sections, s.scrollTop),
      InBand(s.menu, s.windowHeight, 0.65, 0.35),
      InBand(s.gallery, s.windowHeight, 0.75, 0.25),
      InBand(s.story, s.windowHeight, 0.75, 0.25),
      InBand(s.location, s.windowHeight, 0.75, 0.25),
      InBand(s.contact, s.windowHeight, 0.75, 0.25));
    (View(v.overlayHidden, hero.heroSectionVisible, hero.taglinesVisible, title, classes),
     hero.effects + TitleEdge(v.galleryTitleVisible, title))
  }

  /**
   * The work one run starts: each block's enter work exactly when its
   * visibility turns on and its exit work exactly when it turns off, the
   * hero's only once the overlay is hidden and only against the tagline's
   * current state.
   */
  lemma ScrollStartsWork(v: View, s: Sample)
    ensures var effects := Scroll(v, s).1;
      && (EnterHero in effects <==>
          v.overlayHidden && HeroVisible(s.hero.top, s.windowHeight) && !v.heroSectionVisible && !v.taglinesVisible)
      && (ExitHero in effects <==>
          v.overlayHidden && !HeroVisible(s.hero.top, s.windowHeight) && v.heroSectionVisible && v.taglinesVisible)
      && (EnterGalleryTitle in effects <==> GalleryTitleVisible(s) && !v.galleryTitleVisible)
      && (ExitGalleryTitle in effects <==> !GalleryTitleVisible(s) && v.galleryTitleVisible)
  {
  }

  /** The classes each run writes: the navbar past 50 px, the active link, and each section's band. */
  lemma ScrollSetsClasses(v: View, s: Sample)
    ensures var c := Scroll(v, s).0.classes;
      && c.navbarScrolled == (s.scrollTop > 50.0)
      && c.activeTarget == ActiveTarget(s.sections, s.scrollTop)
      && c.menuVisible == InBand(s.menu, s.windowHeight, 0.65, 0.35)
      && c.galleryVisible == InBand(s.gallery, s.windowHeight, 0.75, 0.25)
      && c.storyVisible == InBand(s.story, s.windowHeight, 0.75, 0.25)
      && c.locationVisible == InBand(s.location, s.windowHeight, 0.75, 0.25)
      && c.contactVisible == InBand(s.contact, s.windowHeight, 0.75, 0.25)
  {
  }

  /** The classes are level-triggered: they depend on the sample alone, not on what the handler saw before. */
  lemma ClassesForgetHistory(v: View, w: View, s: Sample)
    ensures Scroll(v, s).0.classes == Scroll(w, s).0.classes
  {
  }

  /**
   * Edge triggering: a second run with the same geometry starts no work
   * and changes nothing, so two runs start the work of one.
   */
  lemma ScrollIdempotent(v: View, s: Sample)
    ensures Scroll(Scroll(v, s).0, s) == (Scroll(v, s).0, [])
  {
  }

  /** The intro overlay gate: until it is hidden the hero block never runs, whatever is sampled. */
  lemma HeroGatedByOverlay(v: View, samples: seq<Sample>)
    requires !v.overlayHidden
    decreases |samples|
    ensures var (w, effects) := ScrollAll(v, samples);
      w.heroSectionVisible == v.heroSectionVisible && w.taglinesVisible == v.taglinesVisible
      && EnterHero !in effects && ExitHero !in effects
  {
    if |samples| > 0 {
      HeroGatedByOverlay(Scroll(v, samples[0]).0, samples[1..]);
    }
  }

  /** Several runs of the handler in a row, with the work they start in order. */
  function ScrollAll(v: View, samples: seq<Sample>): (r: (View, seq<Effect>))
    ensures r.0.overlayHidden == v.overlayHidden
    ensures RevealIntro !in r.1 && |r.1| <= 2 * |samples|
    decreases |samples|
  {
    if |samples| == 0 then (v, [])
    else
      var (w, first) := Scroll(v, samples[0]);
      var (u, rest) := ScrollAll(w, samples[1..]);
      (u, first + rest)
  }

  /**
   * The hero flags: frozen while the overlay is up; once it is hidden the
   * stored visibility is the sampled one, and the tagline follows it when it
   * flips. The gallery title's flag always records the sample.
   */
  lemma ScrollRecordsVisibility(v: View, s: Sample)
    ensures var w := Scroll(v, s).0;
      && (!v.overlayHidden ==> w.heroSectionVisible == v.heroSectionVisible && w.taglinesVisible == v.taglinesVisible)
      && (v.overlayHidden ==> w.heroSectionVisible == HeroVisible(s.hero.top, s.windowHeight))
      && (v.overlayHidden && HeroVisible(s.hero.top, s.windowHeight) != v.heroSectionVisible ==>
            w.taglinesVisible == HeroVisible(s.hero.top, s.windowHeight))
      && w.galleryTitleVisible == GalleryTitleVisible(s)
  {
  }

  class ScrollEffects {
    var overlayHidden: bool
    var heroSectionVisible: bool
    var taglinesCurrentlyVisible: bool
    /** `gallerySection.dataset.isVisible === 'true'`. */
    var galleryTitleVisible: bool
    var classes: Classes
    /** Intro overlay clicks whose 100 ms timer has not fired yet. */
    var introTimers: nat
    /** The work started so far, in order. */
    var fired: seq<Effect>

    function CurrentView(): View
      reads this
    {
      View(overlayHidden, heroSectionVisible, taglinesCurrentlyVisible, galleryTitleVisible, classes)
    }

    /**
     * Page-ready state: the overlay is up, the hero counts as visible, the
     * tagline is not shown, then the handler runs once.
     */
    constructor (s: Sample)
      ensures var page := View(false, true, false, false, Classes(false, "", false, false, false, false, false));
        CurrentView() == Scroll(page, s).0 && fired == Scroll(page, s).1
      ensures introTimers == 0
    {
      overlayHidden := false;
      heroSectionVisible := true;
      taglinesCurrentlyVisible := false;
      galleryTitleVisible := false;
      classes := Classes(false, "", false, false, false, false, false);
      introTimers := 0;
      fired := [];
      new;
      HandleScroll(s);
    }

    /** `handleScroll()` on the sampled geometry. */
    method HandleScroll(s: Sample)
      modifies this
      ensures CurrentView() == Scroll(old(CurrentView()), s).0
      ensures fired == old(fired) + Scroll(old(CurrentView()), s).1
      ensures introTimers == old(introTimers)
    {
      ghost var before := CurrentView();
      ghost var after := Scroll(before, s);
      var scrollTop := s.scrollTop;
      var target := FindActiveTarget(s.sections, scrollTop);

      var heroEffects := HeroBlock(s);

      var h := s.windowHeight;
      classes := Classes(
        scrollTop > 50.0,
        target,
        InBand(s.menu, h, 0.65, 0.35),
        InBand(s.gallery, h, 0.75, 0.25),
        InBand(s.story, h, 0.75, 0.25),
        InBand(s.location, h, 0.75, 0.25),
        InBand(s.contact, h, 0.75, 0.25));

      var titleEffects := TitleBlock(s);
      assert classes == after.0.classes;
      assert heroEffects + titleEffects == after.1;
      fired := fired + (heroEffects + titleEffects);
      assert CurrentView() == after.0;
    }

    /** The hero part of `handleScroll`: returns the work it starts. */
    method HeroBlock(s: Sample) returns (effects: seq<Effect>)
      modifies this`heroSectionVisible, this`taglinesCurrentlyVisible
      ensures var r := HeroEdge(overlayHidden, old(heroSectionVisible), old(taglinesCurrentlyVisible),
                                HeroVisible(s.hero.top, s.windowHeight));
        heroSectionVisible == r.heroSectionVisible && taglinesCurrentlyVisible == r.taglinesVisible && effects == r.effects
    {
      effects := [];
      if overlayHidden {
        var isVisible := HeroVisible(s.hero.top, s.windowHeight);
        if isVisible != heroSectionVisible {
          heroSectionVisible := isVisible;
          if !isVisible {
            if taglinesCurrentlyVisible {
              effects := [ExitHero];
              taglinesCurrentlyVisible := false;
            }
          } else if isVisible && !taglinesCurrentlyVisible {
            effects := [EnterHero];
            taglinesCurrentlyVisible := true;
          }
        }
      }
    }

    /** The gallery-title part of `handleScroll`: returns the work it starts. */
    method TitleBlock(s: Sample) returns (effects: seq<Effect>)
      modifies this`galleryTitleVisible
      ensures galleryTitleVisible == GalleryTitleVisible(s)
      ensures effects == TitleEdge(old(galleryTitleVisible), GalleryTitleVisible(s))
    {
      effects := [];
      var isGalleryVisible := GalleryTitleVisible(s);
      if isGalleryVisible != galleryTitleVisible {
        galleryTitleVisible := isGalleryVisible;
        if isGalleryVisible {
          effects := [EnterGalleryTitle];
        } else {
          effects := [ExitGalleryTitle];
        }
      }
    }

    /** A click on the intro overlay: hide it and schedule the first tagline reveal. */
    method DismissIntro()
      modifies this
      ensures overlayHidden && introTimers == old(introTimers) + 1
      ensures CurrentView() == old(CurrentView()).(overlayHidden := true)
      ensures fired == old(fired)
    {
      overlayHidden := true;
      introTimers := introTimers + 1;
    }

    /** The 100 ms timer after an overlay click: the tagline is revealed and marked visible. */
    method IntroTimerFired()
      requires introTimers > 0
      modifies this
      ensures introTimers == old(introTimers) - 1
      ensures CurrentView() == old(CurrentView()).(taglinesVisible := true)
      ensures fired == old(fired) + [RevealIntro]
    {
      introTimers := introTimers - 1;
      taglinesCurrentlyVisible := true;
      fired := fired + [RevealIntro];
    }
  }
}
