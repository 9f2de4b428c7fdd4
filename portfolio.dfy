/** The `Portfolio` class of js/main.js, with the page it drives reduced to
    the few flags and strings its rules read and write: the image viewer, the
    theme, the navbar, the navigation links, the loaded data and the project
    modal.  Browser events and timers are the methods below, called in
    whatever order the page would dispatch them. */
module PortfolioPage {
  import opened Options
  import opened PortfolioRules
  import opened PortfolioData

  /** A `.nav-link` anchor: its href and whether it has the class 'active'. */
  datatype NavLink = NavLink(href: string, active: bool)

  /** Reading `images[i]` in JavaScript: `undefined` (None) outside the list. */
  function ImageAt(images: seq<string>, i: int): (src: Option<string>)
    ensures src.Some? <==> 0 <= i < |images|
    ensures src.Some? ==> src.value == images[i]
  {
    if 0 <= i < |images| then Some(images[i]) else None
  }

  class Portfolio {
    // Fields of the JavaScript object (js/main.js:442-452).
    var scrollPosition: real
    var isLoading: bool
    var darkModeProgress: real
    var projects: seq<Project>
    var skills: seq<SkillGroup>
    var timeline: seq<TimelineEntry>
    var manualThemeOverride: bool
    var currentImageIndex: int
    var currentProjectImages: seq<string>

    // The page, as far as these methods touch it.
    var viewerCreated: bool          // an element #imageViewer exists
    var viewerVisible: bool          // #imageViewer has the class 'visible'
    var viewerImage: Option<string>  // src of #viewerImage (None: undefined)
    var bodyOverflow: string         // document.body.style.overflow
    var darkMode: bool               // body has the class 'dark-mode'
    var themeTransitioning: bool     // body has the class 'theme-transitioning'
    var themeIcon: string            // class name of the theme button's icon
    var storedTheme: Option<string>  // localStorage item 'theme'
    var navbarVisible: bool          // #navbar has the class 'visible'
    var navLinks: seq<NavLink>       // the `.nav-link` anchors, in document order
    var modalVisible: bool           // #projectModal has the class 'visible'
    var modalProject: Option<Project> // the project whose title, images and details the modal shows

    /** The viewer element exists whenever a list of images has been opened or
        the viewer is shown, so `nextImage` and `previousImage` always find
        #viewerImage. */
    ghost predicate Valid()
      reads this
    {
      && (|currentProjectImages| > 0 ==> viewerCreated)
      && (viewerVisible ==> viewerCreated)
    }

    /** `new Portfolio()` up to the call of `init`: the fields start as the
        constructor sets them; storage, the icon and the links are what the
        page already holds. */
    constructor (saved: Option<string>, iconClass: string, links: seq<NavLink>)
      ensures Valid()
      ensures scrollPosition == 0.0 && isLoading && darkModeProgress == 0.0
      ensures projects == [] && skills == [] && timeline == []
      ensures !manualThemeOverride && currentImageIndex == 0 && currentProjectImages == []
      ensures !viewerCreated && !viewerVisible && viewerImage == None && bodyOverflow == ""
      ensures !darkMode && !themeTransitioning && themeIcon == iconClass && storedTheme == saved
      ensures !navbarVisible && navLinks == links && !modalVisible && modalProject == None
    {
      scrollPosition, isLoading, darkModeProgress := 0.0, true, 0.0;
      projects, skills, timeline := [], [], [];
      manualThemeOverride, currentImageIndex, currentProjectImages := false, 0, [];
      viewerCreated, viewerVisible, viewerImage, bodyOverflow := false, false, None, "";
      darkMode, themeTransitioning, themeIcon, storedTheme := false, false, iconClass, saved;
      navbarVisible, navLinks, modalVisible, modalProject := false, links, false, None;
    }

    // ----- Loading (js/main.js:457-577) -----

    /** `loadData`: `projectsFetch` and `skillsFetch` are the parsed bodies of
        data/projects.json and data/skills.json, None when the fetch or the
        parse throws.  The skills are fetched only after the projects have
        arrived.  Any failure lands in the catch block, which installs both
        fallback lists and leaves the timeline as it was. */
    method LoadData(projectsFetch: Option<seq<Project>>, skillsFetch: Option<seq<SkillGroup>>)
      requires Valid()
      modifies this
      ensures Valid()
      ensures projectsFetch.Some? && skillsFetch.Some? ==>
                projects == projectsFetch.value && skills == skillsFetch.value && timeline == EmbeddedTimeline
      ensures projectsFetch.None? || skillsFetch.None? ==>
                projects == FallbackProjects && skills == FallbackSkills && timeline == old(timeline)
      ensures unchanged(this`scrollPosition, this`darkMode, this`storedTheme, this`navLinks, this`modalVisible)
      ensures unchanged(this`currentProjectImages, this`currentImageIndex, this`viewerCreated, this`viewerVisible)
      ensures unchanged(this`isLoading, this`darkModeProgress, this`manualThemeOverride, this`viewerImage)
      ensures unchanged(this`bodyOverflow, this`themeTransitioning, this`themeIcon, this`navbarVisible, this`modalProject)
    {
      match projectsFetch
      case None =>
        SetFallbackData();
      case Some(ps) =>
        projects := ps;
        match skillsFetch
        case None =>
          SetFallbackData();
        case Some(ss) =>
          skills := ss;
          timeline := EmbeddedTimeline;
    }

    /** `setFallbackData`: the three fallback projects and four skill groups. */
    method SetFallbackData()
      modifies this`projects, this`skills
      ensures projects == FallbackProjects && skills == FallbackSkills
    {
      projects := FallbackProjects;
      skills := FallbackSkills;
    }

    /** `init` up to the timers: load the data, then apply the saved theme. */
    method Init(projectsFetch: Option<seq<Project>>, skillsFetch: Option<seq<SkillGroup>>)
      requires Valid()
      modifies this
      ensures Valid()
      ensures projectsFetch.Some? && skillsFetch.Some? ==>
                projects == projectsFetch.value && skills == skillsFetch.value && timeline == EmbeddedTimeline
      ensures projectsFetch.None? || skillsFetch.None? ==>
                projects == FallbackProjects && skills == FallbackSkills && timeline == old(timeline)
      ensures projectsFetch.None? || skillsFetch.None? ==> |projects| == 3 && |skills| == 4
      ensures darkMode == (old(darkMode) || SavedThemeTurnsDark(storedTheme))
      ensures themeIcon == if SavedThemeTurnsDark(storedTheme) then ThemeIconClass(true) else old(themeIcon)
      ensures storedTheme == old(storedTheme)
      ensures unchanged(this`scrollPosition, this`navLinks, this`modalVisible, this`modalProject, this`navbarVisible)
      ensures unchanged(this`currentProjectImages, this`currentImageIndex, this`viewerCreated, this`viewerVisible)
      ensures unchanged(this`isLoading, this`darkModeProgress, this`manualThemeOverride, this`viewerImage)
      ensures unchanged(this`bodyOverflow, this`themeTransitioning)
    {
      LoadData(projectsFetch, skillsFetch);
      SetupThemeToggle();
    }

    /** The timer that hides the loading overlay one second after `init`. */
    method FinishLoading()
      modifies this`isLoading
      ensures !isLoading
    {
      isLoading := false;
    }

    // ----- Theme (js/main.js:643-652, 725-748) -----

    /** The startup half of `setupThemeToggle`: only a saved 'dark' turns dark
        mode on (and sets the moon icon); any other value changes nothing. */
    method SetupThemeToggle()
      modifies this`darkMode, this`themeIcon
      ensures darkMode == (old(darkMode) || SavedThemeTurnsDark(storedTheme))
      ensures themeIcon == if SavedThemeTurnsDark(storedTheme) then ThemeIconClass(true) else old(themeIcon)
    {
      if storedTheme == Some("dark") {
        darkMode := true;
        themeIcon := "fas fa-moon";
      }
    }

    /** The theme button's click handler: flip dark mode, then set the icon and
        persist 'dark' or 'light' to match the new mode. */
    method ToggleTheme()
      modifies this`darkMode, this`themeIcon, this`storedTheme
      ensures darkMode == !old(darkMode)
      ensures storedTheme == Some(StoredThemeValue(darkMode))
      ensures themeIcon == ThemeIconClass(darkMode)
    {
      darkMode := !darkMode;
      if darkMode {
        themeIcon := "fas fa-moon";
        storedTheme := Some("dark");
      } else {
        themeIcon := "fas fa-sun";
        storedTheme := Some("light");
      }
    }

    /** `updateThemeTransition`: past a progress of 0.3 dark mode is switched on
        (with the transition class) if it is off.  It never switches dark mode
        off and never reads `manualThemeOverride`. */
    method UpdateThemeTransition()
      modifies this`darkMode, this`themeTransitioning
      ensures darkMode == (old(darkMode) || darkModeProgress > 0.3)
      ensures themeTransitioning == (old(themeTransitioning) || (!old(darkMode) && darkModeProgress > 0.3))
    {
      if darkModeProgress > 0.3 && !darkMode {
        darkMode := true;
        themeTransitioning := true;
      }
    }

    /** The two-second timer that removes 'theme-transitioning' again. */
    method EndThemeTransition()
      modifies this`themeTransitioning
      ensures !themeTransitioning
    {
      themeTransitioning := false;
    }

    // ----- Scrolling (js/main.js:615-633, 714-723) -----

    /** `updateScrollEffects`, run in an animation frame after a scroll:
        record the offset, recompute the dark-mode progress, apply the theme
        and navbar rules.  The style writes of `updateProfileTransform` are
        not modelled; its thresholds are `NamePhaseAt`. */
    method OnScrollFrame(pageYOffset: real, innerHeight: real)
      requires innerHeight > 0.0
      modifies this`scrollPosition, this`darkModeProgress, this`darkMode, this`themeTransitioning, this`navbarVisible
      ensures scrollPosition == pageYOffset
      ensures darkModeProgress == DarkModeProgress(pageYOffset, innerHeight)
      ensures darkMode == (old(darkMode) || pageYOffset > innerHeight * 0.15)
      ensures themeTransitioning == (old(themeTransitioning) || (!old(darkMode) && pageYOffset > innerHeight * 0.15))
      ensures navbarVisible == NavbarShown(pageYOffset, innerHeight)
    {
      scrollPosition := pageYOffset;
      darkModeProgress := Min(scrollPosition / (innerHeight * 0.5), 1.0);
      DarkModeForcedPast(pageYOffset, innerHeight);
      UpdateThemeTransition();
      UpdateNavigationVisibility(innerHeight);
    }

    /** `updateNavigationVisibility`: the navbar shows exactly past 80% of the
        viewport height. */
    method UpdateNavigationVisibility(innerHeight: real)
      modifies this`navbarVisible
      ensures navbarVisible == NavbarShown(scrollPosition, innerHeight)
    {
      var scrollThreshold := innerHeight * 0.8;
      if scrollPosition > scrollThreshold {
        navbarVisible := true;
      } else {
        navbarVisible := false;
      }
    }

    // ----- Active navigation link (js/main.js:750-802) -----

    /** `updateActiveNavigation`: every link loses 'active' and exactly those
        whose href is '#' + `activeId` get it; hrefs and order are untouched. */
    method UpdateActiveNavigation(activeId: string)
      modifies this`navLinks
      ensures |navLinks| == |old(navLinks)|
      ensures forall k :: 0 <= k < |navLinks| ==> navLinks[k].href == old(navLinks)[k].href
      ensures forall k :: 0 <= k < |navLinks| ==> (navLinks[k].active <==> navLinks[k].href == "#" + activeId)
    {
      var i := 0;
      while i < |navLinks|
        invariant 0 <= i <= |navLinks| && |navLinks| == |old(navLinks)|
        invariant forall k :: 0 <= k < |navLinks| ==> navLinks[k].href == old(navLinks)[k].href
        invariant forall k :: 0 <= k < i ==> (navLinks[k].active <==> navLinks[k].href == "#" + activeId)
      {
        var link := navLinks[i].(active := false);
        if link.href == "#" + activeId {
          link := link.(active := true);
        }
        navLinks := navLinks[i := link];
        i := i + 1;
      }
    }

    /** The `forEach` of `updateActiveNavigationOnScroll`: the id of the last
        section that holds the recorded scroll position, '' when none does. */
    method CurrentSection(sections: seq<Section>) returns (current: string)
      ensures current == CurrentSectionId(sections, scrollPosition)
    {
      current := "";
      var i := 0;
      while i < |sections|
        invariant 0 <= i <= |sections|
        invariant current == CurrentSectionId(sections[..i], scrollPosition)
      {
        var sectionTop := sections[i].offsetTop - 150.0;
        var sectionHeight := sections[i].clientHeight;
        assert sections[..i + 1][..i] == sections[..i];
        if scrollPosition >= sectionTop && scrollPosition < sectionTop + sectionHeight {
          current := sections[i].id;
        }
        i := i + 1;
      }
      assert sections[..i] == sections;
    }

    /** `updateActiveNavigationOnScroll`: the links follow the section found;
        when none is found (or its id is empty) they are left as they were. */
    method UpdateActiveNavigationOnScroll(sections: seq<Section>)
      modifies this`navLinks
      ensures CurrentSectionId(sections, scrollPosition) == "" ==> navLinks == old(navLinks)
      ensures CurrentSectionId(sections, scrollPosition) != "" ==>
                |navLinks| == |old(navLinks)|
                && forall k :: 0 <= k < |navLinks| ==>
                     navLinks[k].href == old(navLinks)[k].href
                     && (navLinks[k].active <==> navLinks[k].href == "#" + CurrentSectionId(sections, scrollPosition))
    {
      var currentSection := CurrentSection(sections);
      if currentSection != "" {
        UpdateActiveNavigation(currentSection);
      }
    }

    /** A click on an in-page anchor: when the target element exists the page
        scrolls to it (not modelled) and the links follow it. */
    method OnAnchorClick(targetId: string, targetExists: bool)
      modifies this`navLinks
      ensures !targetExists ==> navLinks == old(navLinks)
      ensures targetExists ==>
                |navLinks| == |old(navLinks)|
                && (forall k :: 0 <= k < |navLinks| ==> navLinks[k].href == old(navLinks)[k].href)
                && (forall k :: 0 <= k < |navLinks| ==> (navLinks[k].active <==> navLinks[k].href == "#" + targetId))
    {
      if targetExists {
        UpdateActiveNavigation(targetId);
      }
    }

    // ----- Project modal (js/main.js:804-859) -----

    /** `openProjectModal`: show the first project with the id and lock body
        scroll; an unknown id changes nothing. */
    method OpenProjectModal(projectId: string)
      modifies this`modalProject, this`modalVisible, this`bodyOverflow
      ensures FindProject(projects, projectId).None? ==>
                modalProject == old(modalProject) && modalVisible == old(modalVisible) && bodyOverflow == old(bodyOverflow)
      ensures FindProject(projects, projectId).Some? ==>
                modalVisible && bodyOverflow == "hidden"
                && modalProject == Some(projects[FindProject(projects, projectId).value])
    {
      match FindProject(projects, projectId)
      case None =>
        return;
      case Some(k) =>
        modalProject := Some(projects[k]);
        modalVisible := true;
        bodyOverflow := "hidden";
    }

    /** `closeProjectModal`: hide the modal and unlock body scroll. */
    method CloseProjectModal()
      modifies this`modalVisible, this`bodyOverflow
      ensures !modalVisible && bodyOverflow == "auto"
    {
      modalVisible := false;
      bodyOverflow := "auto";
    }

    /** The modal's keydown listener: Escape closes it while it is visible. */
    method OnModalKey(key: string)
      modifies this`modalVisible, this`bodyOverflow
      ensures key == "Escape" && old(modalVisible) ==> !modalVisible && bodyOverflow == "auto"
      ensures !(key == "Escape" && old(modalVisible)) ==> modalVisible == old(modalVisible) && bodyOverflow == old(bodyOverflow)
    {
      if key == "Escape" && modalVisible {
        CloseProjectModal();
      }
    }

    // ----- Image viewer (js/main.js:215-290) -----

    /** `openImageViewer`: remember the list and the start index as given (no
        clamping), create the viewer on first use, show `images[startIndex]`
        (undefined when out of range) and lock body scroll. */
    method OpenImageViewer(images: seq<string>, startIndex: int)
      requires Valid()
      modifies this`currentProjectImages, this`currentImageIndex, this`viewerCreated, this`viewerImage, this`viewerVisible, this`bodyOverflow
      ensures Valid()
      ensures currentProjectImages == images && currentImageIndex == startIndex
      ensures viewerCreated && viewerVisible && bodyOverflow == "hidden"
      ensures viewerImage == ImageAt(images, startIndex)
    {
      currentProjectImages := images;
      currentImageIndex := startIndex;
      if !viewerCreated {
        viewerCreated := true;
      }
      viewerImage := ImageAt(images, startIndex);
      viewerVisible := true;
      bodyOverflow := "hidden";
    }

    /** `closeImageViewer`: hide the viewer and unlock body scroll; nothing at
        all when the viewer was never created. */
    method CloseImageViewer()
      requires Valid()
      modifies this`viewerVisible, this`bodyOverflow
      ensures Valid()
      ensures old(viewerCreated) ==> !viewerVisible && bodyOverflow == "auto"
      ensures !old(viewerCreated) ==> viewerVisible == old(viewerVisible) && bodyOverflow == old(bodyOverflow)
    {
      if viewerCreated {
        viewerVisible := false;
        bodyOverflow := "auto";
      }
    }

    /** `nextImage`: with more than one image, step forward with wrap-around
        and show that image; with one or none, change nothing. */
    method NextImage()
      requires Valid()
      modifies this`currentImageIndex, this`viewerImage
      ensures Valid()
      ensures |currentProjectImages| > 1 ==>
                currentImageIndex == NextImageIndex(old(currentImageIndex), |currentProjectImages|)
                && viewerImage == ImageAt(currentProjectImages, currentImageIndex)
      ensures |currentProjectImages| <= 1 ==>
                currentImageIndex == old(currentImageIndex) && viewerImage == old(viewerImage)
      ensures 0 <= old(currentImageIndex) < |currentProjectImages| ==> 0 <= currentImageIndex < |currentProjectImages|
    {
      if |currentProjectImages| > 1 {
        currentImageIndex := JsRem(currentImageIndex + 1, |currentProjectImages|);
        viewerImage := ImageAt(currentProjectImages, currentImageIndex);
      }
    }

    /** `previousImage`: with more than one image, step back with wrap-around
        and show that image; with one or none, change nothing. */
    method PreviousImage()
      requires Valid()
      modifies this`currentImageIndex, this`viewerImage
      ensures Valid()
      ensures |currentProjectImages| > 1 ==>
                currentImageIndex == PreviousImageIndex(old(currentImageIndex), |currentProjectImages|)
                && viewerImage == ImageAt(currentProjectImages, currentImageIndex)
      ensures |currentProjectImages| <= 1 ==>
                currentImageIndex == old(currentImageIndex) && viewerImage == old(viewerImage)
      ensures 0 <= old(currentImageIndex) < |currentProjectImages| ==> 0 <= currentImageIndex < |currentProjectImages|
    {
      if |currentProjectImages| > 1 {
        currentImageIndex := JsRem(currentImageIndex - 1 + |currentProjectImages|, |currentProjectImages|);
        viewerImage := ImageAt(currentProjectImages, currentImageIndex);
      }
    }

    /** The viewer's keydown listener: while the viewer is visible, Escape
        closes it and the arrow keys step through the images.  The three
        checks run one after another on the same key. */
    method OnViewerKey(key: string)
      requires Valid()
      modifies this`viewerVisible, this`bodyOverflow, this`currentImageIndex, this`viewerImage
      ensures Valid()
      ensures !old(viewerVisible) || key !in {"Escape", "ArrowLeft", "ArrowRight"} ==>
                viewerVisible == old(viewerVisible) && bodyOverflow == old(bodyOverflow)
                && currentImageIndex == old(currentImageIndex) && viewerImage == old(viewerImage)
      ensures old(viewerVisible) && key == "Escape" ==>
                !viewerVisible && bodyOverflow == "auto"
                && currentImageIndex == old(currentImageIndex) && viewerImage == old(viewerImage)
      ensures old(viewerVisible) && key in {"ArrowLeft", "ArrowRight"} ==>
                viewerVisible == old(viewerVisible) && bodyOverflow == old(bodyOverflow)
      ensures old(viewerVisible) && key in {"ArrowLeft", "ArrowRight"} && |currentProjectImages| <= 1 ==>
                currentImageIndex == old(currentImageIndex) && viewerImage == old(viewerImage)
      ensures old(viewerVisible) && key == "ArrowRight" && |currentProjectImages| > 1 ==>
                currentImageIndex == NextImageIndex(old(currentImageIndex), |currentProjectImages|)
                && viewerImage == ImageAt(currentProjectImages, currentImageIndex)
      ensures old(viewerVisible) && key == "ArrowLeft" && |currentProjectImages| > 1 ==>
                currentImageIndex == PreviousImageIndex(old(currentImageIndex), |currentProjectImages|)
                && viewerImage == ImageAt(currentProjectImages, currentImageIndex)
    {
      if viewerVisible {
        if key == "Escape" {
          CloseImageViewer();
        }
        if key == "ArrowLeft" {
          PreviousImage();
        }
        if key == "ArrowRight" {
          NextImage();
        }
      }
    }

    /** A click on the viewer's backdrop closes it. */
    method OnViewerBackdropClick()
      requires Valid() && viewerCreated
      modifies this`viewerVisible, this`bodyOverflow
      ensures Valid()
      ensures !viewerVisible && bodyOverflow == "auto"
    {
      CloseImageViewer();
    }
  }
}
