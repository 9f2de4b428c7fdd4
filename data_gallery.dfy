/** js/data.js: the constant project, skill and timeline lists, the loaders
    that turn them into cards, the hover preview of a project's first images,
    and the gallery modal with its thumbnails and wrap-around navigation.

    The gallery keeps the main image's `src` as the browser reports it: an
    absolute URL, the page's base URL joined with the relative path the
    script assigned.  That is what `navigateImages` compares the project's
    (relative) image paths against; see `CurrentIndexAsWritten`. */
module SiteContent {

  // ----- The constant data (js/data.js:2-97) -----

  datatype DataProject = DataProject(
    id: string,
    title: string,
    description: string,
    images: seq<string>,
    downloadLink: string,
    category: string)

  datatype DataSkill = DataSkill(name: string, icon: string, description: string)

  datatype Milestone = Milestone(year: string, title: string, description: string)

  const ProjectsData: seq<DataProject> := [
    DataProject(
      "ecommerce-project",
      "E-Commerce Sales Insights",
      "Comprehensive analysis of e-commerce order data with insights into cancellation drivers and sales performance optimization.",
      ["Image/Projectec/1.png", "Image/Projectec/2.png", "Image/Projectec/3.png", "Image/Projectec/4.png"],
      "https://drive.google.com/drive/folders/1ujHD_MZVCvIBBHDwB72kwxqbdRDrXSyg",
      "Data Analysis"),
    DataProject(
      "crypto-project",
      "Crypto Market Risk Dashboard",
      "Power BI dashboard analyzing cryptocurrency volatility and market sentiment to assess risk factors and investment opportunities.",
      ["Image/Projectcrypto/1.png", "Image/Projectcrypto/2.png", "Image/Projectcrypto/3.png"],
      "https://drive.google.com/drive/folders/1cvIZ0nbRI022NNEHhLUcRlc6VFNQEGCo",
      "Risk Analysis"),
    DataProject(
      "abc-project",
      "ABC Analytics Platform",
      "Comprehensive analytics platform with sprint planning, UAT testing, and test case management capabilities.",
      ["Image/Projects/P3ABC/1.png", "Image/Projects/P3ABC/Sprint.png", "Image/Projects/P3ABC/UAT Results.png",
       "Image/Projects/P3ABC/UAT Scenario.png", "Image/Projects/P3ABC/UAT Signoff.png", "Image/Projects/P3ABC/UAT.png",
       "Image/Projects/P3ABC/test_case.png"],
      "#",
      "Business Intelligence")
  ]

  const SkillsData: seq<DataSkill> := [
    DataSkill("Power BI", "fas fa-chart-bar", "Interactive dashboard creation and business intelligence"),
    DataSkill("Tableau", "fas fa-chart-pie", "Data visualization and analytics platform"),
    DataSkill("Excel", "fas fa-table", "Advanced financial modeling and data analysis"),
    DataSkill("SQL", "fas fa-database", "Database querying and management"),
    DataSkill("Financial Analysis", "fas fa-chart-line", "Risk assessment and financial modeling"),
    DataSkill("Data Visualization", "fas fa-eye", "Creating compelling data stories")
  ]

  const TimelineData: seq<Milestone> := [
    Milestone("2023", "Beginning of Analytics Journey",
      "Started mastering data analysis tools and techniques, focusing on business intelligence and financial analytics."),
    Milestone("2024", "Advanced Skill Development",
      "Developed expertise in Power BI, Tableau, and advanced Excel. Built comprehensive dashboards and financial models."),
    Milestone("2025", "Project Portfolio & Publications",
      "Created multiple analytics projects, published insights, and established expertise in crypto market analysis and e-commerce analytics.")
  ]

  // ----- Cards (js/data.js:107-175) -----

  /** A card a loader appends, with its `animationDelay` in seconds. */
  datatype Card =
    | ProjectCard(title: string, image: string, delay: real)
    | SkillCard(name: string, icon: string, delay: real)
    | TimelineItem(year: string, heading: string, delay: real)

  /** `${images[0]}` in a template: the text 'undefined' for an empty list. */
  function FirstImage(images: seq<string>): (s: string)
    ensures |images| > 0 ==> s == images[0]
    ensures |images| == 0 ==> s == "undefined"
  {
    if |images| > 0 then images[0] else "undefined"
  }

  /** The cards `loadProjects` appends, in data order, 0.2 s apart. */
  function ProjectCards(data: seq<DataProject>): (cards: seq<Card>)
    ensures |cards| == |data|
    ensures forall k :: 0 <= k < |cards| ==>
              cards[k].ProjectCard? && cards[k].title == data[k].title && cards[k].delay == k as real * 0.2
              && cards[k].image == (if |data[k].images| > 0 then data[k].images[0] else "undefined")
  {
    seq(|data|, k requires 0 <= k < |data| => ProjectCard(data[k].title, FirstImage(data[k].images), k as real * 0.2))
  }

  /** The cards `loadSkills` appends, in data order, 0.1 s apart. */
  function SkillCards(data: seq<DataSkill>): (cards: seq<Card>)
    ensures |cards| == |data|
    ensures forall k :: 0 <= k < |cards| ==>
              cards[k].SkillCard? && cards[k].name == data[k].name && cards[k].icon == data[k].icon
              && cards[k].delay == k as real * 0.1
  {
    seq(|data|, k requires 0 <= k < |data| => SkillCard(data[k].name, data[k].icon, k as real * 0.1))
  }

  /** The items `loadTimeline` appends, in data order, 0.3 s apart. */
  function TimelineItems(data: seq<Milestone>): (cards: seq<Card>)
    ensures |cards| == |data|
    ensures forall k :: 0 <= k < |cards| ==>
              cards[k].TimelineItem? && cards[k].year == data[k].year && cards[k].heading == data[k].title
              && cards[k].delay == k as real * 0.3
  {
    seq(|data|, k requires 0 <= k < |data| => TimelineItem(data[k].year, data[k].title, k as real * 0.3))
  }

  /** The delays grow by one step per card, so each card starts after the one
      before it; every project has a first image, so no card shows 'undefined'. */
  lemma CardsInOrder()
    ensures forall k :: 0 < k < |ProjectsData| ==> ProjectCards(ProjectsData)[k - 1].delay < ProjectCards(ProjectsData)[k].delay
    ensures forall k :: 0 < k < |SkillsData| ==> SkillCards(SkillsData)[k - 1].delay < SkillCards(SkillsData)[k].delay
    ensures forall k :: 0 < k < |TimelineData| ==> TimelineItems(TimelineData)[k - 1].delay < TimelineItems(TimelineData)[k].delay
    ensures forall k :: 0 <= k < |ProjectsData| ==> ProjectCards(ProjectsData)[k].image == ProjectsData[k].images[0]
  {
  }

  // ----- Preview (js/data.js:178-219) -----

  /** A `#projectPreview` element: its images and its inline opacity and transform. */
  datatype Preview = Preview(images: seq<string>, opacity: string, transform: string)

  const PreviewHidden := "translate(-50%, -50%) scale(0.8)"
  const PreviewShown := "translate(-50%, -50%) scale(1)"

  /** `images.slice(0, 4)`: the preview shows at most the first four images. */
  function PreviewImages(images: seq<string>): (shown: seq<string>)
    ensures |shown| <= 4
    ensures |images| <= 4 ==> shown == images
    ensures |images| > 4 ==> |shown| == 4
    ensures forall k :: 0 <= k < |shown| ==> shown[k] == images[k]
  {
    if |images| <= 4 then images else images[..4]
  }

  /** The page regions the loaders fill and the previews on the page, in
      document order. */
  class ContentPage {
    var projectsShowcase: seq<Card>
    var skillsGrid: seq<Card>
    var timeline: seq<Card>
    var previews: seq<Preview>

    constructor ()
      ensures projectsShowcase == [] && skillsGrid == [] && timeline == [] && previews == []
    {
      projectsShowcase, skillsGrid, timeline, previews := [], [], [], [];
    }

    /** `initializeData`: the three loaders one after the other. */
    method InitializeData()
      modifies this`projectsShowcase, this`skillsGrid, this`timeline
      ensures projectsShowcase == old(projectsShowcase) + ProjectCards(ProjectsData)
      ensures skillsGrid == old(skillsGrid) + SkillCards(SkillsData)
      ensures timeline == old(timeline) + TimelineItems(TimelineData)
    {
      LoadProjects();
      LoadSkills();
      LoadTimeline();
    }

    /** `loadProjects`: one card per project, appended in order. */
    method LoadProjects()
      modifies this`projectsShowcase
      ensures projectsShowcase == old(projectsShowcase) + ProjectCards(ProjectsData)
    {
      var i := 0;
      while i < |ProjectsData|
        invariant 0 <= i <= |ProjectsData|
        invariant projectsShowcase == old(projectsShowcase) + ProjectCards(ProjectsData)[..i]
      {
        var project := ProjectsData[i];
        projectsShowcase := projectsShowcase + [ProjectCard(project.title, FirstImage(project.images), i as real * 0.2)];
        assert ProjectCards(ProjectsData)[..i + 1] == ProjectCards(ProjectsData)[..i] + [ProjectCards(ProjectsData)[i]];
        i := i + 1;
      }
      assert ProjectCards(ProjectsData)[..i] == ProjectCards(ProjectsData);
    }

    /** `loadSkills`: one card per skill, appended in order. */
    method LoadSkills()
      modifies this`skillsGrid
      ensures skillsGrid == old(skillsGrid) + SkillCards(SkillsData)
    {
      var i := 0;
      while i < |SkillsData|
        invariant 0 <= i <= |SkillsData|
        invariant skillsGrid == old(skillsGrid) + SkillCards(SkillsData)[..i]
      {
        var skill := SkillsData[i];
        skillsGrid := skillsGrid + [SkillCard(skill.name, skill.icon, i as real * 0.1)];
        assert SkillCards(SkillsData)[..i + 1] == SkillCards(SkillsData)[..i] + [SkillCards(SkillsData)[i]];
        i := i + 1;
      }
      assert SkillCards(SkillsData)[..i] == SkillCards(SkillsData);
    }

    /** `loadTimeline`: one item per milestone, appended in order. */
    method LoadTimeline()
      modifies this`timeline
      ensures timeline == old(timeline) + TimelineItems(TimelineData)
    {
      var i := 0;
      while i < |TimelineData|
        invariant 0 <= i <= |TimelineData|
        invariant timeline == old(timeline) + TimelineItems(TimelineData)[..i]
      {
        var item := TimelineData[i];
        timeline := timeline + [TimelineItem(item.year, item.title, i as real * 0.3)];
        assert TimelineItems(TimelineData)[..i + 1] == TimelineItems(TimelineData)[..i] + [TimelineItems(TimelineData)[i]];
        i := i + 1;
      }
      assert TimelineItems(TimelineData)[..i] == TimelineItems(TimelineData);
    }

    /** `showProjectPreview`: append a new, still transparent preview of the
        first four images (earlier previews are not removed first). */
    method ShowProjectPreview(project: DataProject)
      modifies this`previews
      ensures previews == old(previews) + [Preview(PreviewImages(project.images), "0", PreviewHidden)]
    {
      var shown := project.images[..if |project.images| < 4 then |project.images| else 4];
      assert shown == PreviewImages(project.images);
      var preview := Preview(shown, "0", PreviewHidden);
      previews := previews + [preview];
    }

    /** The 50 ms timer of `showProjectPreview` for the preview at position `k`. */
    method PreviewShownTimerFired(k: nat)
      requires k < |previews|
      modifies this`previews
      ensures previews == old(previews)[k := old(previews)[k].(opacity := "1", transform := PreviewShown)]
    {
      previews := previews[k := previews[k].(opacity := "1", transform := PreviewShown)];
    }

    /** `hideProjectPreview`: the first `#projectPreview` in the document
        starts fading out; with no preview on the page nothing happens. */
    method HideProjectPreview()
      modifies this`previews
      ensures old(previews) == [] ==> previews == []
      ensures old(previews) != [] ==>
                previews == old(previews)[0 := old(previews)[0].(opacity := "0", transform := PreviewHidden)]
    {
      if |previews| > 0 {
        previews := previews[0 := previews[0].(opacity := "0", transform := PreviewHidden)];
      }
    }

    /** The 500 ms timer of `hideProjectPreview`: the preview at position `k`
        leaves the page. */
    method PreviewRemovalTimerFired(k: nat)
      requires k < |previews|
      modifies this`previews
      ensures previews == old(previews)[..k] + old(previews)[k + 1..]
    {
      previews := previews[..k] + previews[k + 1..];
    }
  }

  // ----- Gallery navigation (js/data.js:222-270) -----

  /** The button that called `navigateImages`. */
  datatype Direction = Next | Prev

  /** The index arithmetic of `navigateImages`: step from `current` (which
      `findIndex` may have left at -1) and wrap at both ends. */
  function NavigateIndex(current: int, n: nat, direction: Direction): (r: int)
    requires n > 0 && -1 <= current < n
    ensures 0 <= r < n
    ensures direction == Next ==> r == (current + 1) % n
    ensures direction == Prev && current <= 0 ==> r == n - 1
    ensures direction == Prev && current > 0 ==> r == current - 1
  {
    var newIndex := if direction == Next then current + 1 else current - 1;
    var raised := if newIndex < 0 then n - 1 else newIndex;
    if raised >= n then 0 else raised
  }

  /** Stepping forward then back, or back then forward, returns to an
      in-range index. */
  lemma NavigateInverse(i: int, n: nat)
    requires n > 0 && 0 <= i < n
    ensures NavigateIndex(NavigateIndex(i, n, Next), n, Prev) == i
    ensures NavigateIndex(NavigateIndex(i, n, Prev), n, Next) == i
  {
  }

  /** `Array.prototype.findIndex` with `===`: the first position holding `x`, or -1. */
  function FindIndex(xs: seq<string>, x: string): (r: int)
    ensures -1 <= r < |xs|
    ensures r >= 0 ==> xs[r] == x && forall j :: 0 <= j < r ==> xs[j] != x
    ensures r == -1 <==> x !in xs
  {
    if |xs| == 0 then -1
    else if xs[0] == x then 0
    else
      var r := FindIndex(xs[1..], x);
      if r == -1 then -1 else r + 1
  }

  // ----- URLs as the browser reports them -----

  predicate HasPrefix(s: string, prefix: string)
  {
    |prefix| <= |s| && s[..|prefix|] == prefix
  }

  /** An http(s) URL, as opposed to a path relative to the page. */
  predicate IsAbsoluteUrl(s: string)
  {
    HasPrefix(s, "http://") || HasPrefix(s, "https://")
  }

  /** What `img.src` reads back after a path was assigned to it: absolute
      URLs unchanged, relative paths joined to the page's base URL. */
  function ResolveUrl(base: string, src: string): (url: string)
    ensures IsAbsoluteUrl(src) ==> url == src
    ensures !IsAbsoluteUrl(src) ==> url == base + src
  {
    if IsAbsoluteUrl(src) then src else base + src
  }

  /** Joining anything to an absolute base gives an absolute URL. */
  lemma ResolvedIsAbsolute(base: string, src: string)
    requires IsAbsoluteUrl(base)
    ensures IsAbsoluteUrl(ResolveUrl(base, src))
  {
    if !IsAbsoluteUrl(src) {
      if HasPrefix(base, "http://") {
        assert (base + src)[..7] == base[..7];
      } else {
        assert (base + src)[..8] == base[..8];
      }
    }
  }

  /** Every image of the list, as `img.src` would report it. */
  function ResolveAll(base: string, images: seq<string>): (urls: seq<string>)
    ensures |urls| == |images|
    ensures forall k :: 0 <= k < |images| ==> urls[k] == ResolveUrl(base, images[k])
  {
    seq(|images|, k requires 0 <= k < |images| => ResolveUrl(base, images[k]))
  }

  /** No two images of the list resolve to the same URL. */
  predicate DistinctUrls(base: string, images: seq<string>)
  {
    forall i, j :: 0 <= i < j < |images| ==> ResolveUrl(base, images[i]) != ResolveUrl(base, images[j])
  }

  /** AS WRITTEN (js/data.js:254): the position of the shown image found by
      comparing the project's paths with `mainImage.src`. */
  function CurrentIndexAsWritten(images: seq<string>, shownUrl: string): (r: int)
    ensures -1 <= r < |images|
    ensures r >= 0 ==> images[r] == shownUrl
    ensures r == -1 <==> shownUrl !in images
  {
    FindIndex(images, shownUrl)
  }

  /** When the project's images are relative paths and the page's base URL
      is absolute, the lookup as written never finds the shown image. */
  lemma AsWrittenNeverFinds(base: string, images: seq<string>, k: nat)
    requires IsAbsoluteUrl(base) && k < |images|
    requires forall j :: 0 <= j < |images| ==> !IsAbsoluteUrl(images[j])
    ensures CurrentIndexAsWritten(images, ResolveUrl(base, images[k])) == -1
  {
    ResolvedIsAbsolute(base, images[k]);
    assert ResolveUrl(base, images[k]) !in images;
  }

  /** So, as written, "next" always shows the first image and "previous"
      always shows the last, whichever image is on screen. */
  lemma AsWrittenNavigationStuck(base: string, images: seq<string>, k: nat)
    requires IsAbsoluteUrl(base) && k < |images|
    requires forall j :: 0 <= j < |images| ==> !IsAbsoluteUrl(images[j])
    ensures NavigateIndex(CurrentIndexAsWritten(images, ResolveUrl(base, images[k])), |images|, Next) == 0
    ensures NavigateIndex(CurrentIndexAsWritten(images, ResolveUrl(base, images[k])), |images|, Prev) == |images| - 1
  {
    AsWrittenNeverFinds(base, images, k);
  }

  /** An instance with the site's own data: on the first project, showing
      image 0, "next" as written shows image 0 again, where image 1 was meant. */
  lemma AsWrittenNextRepeatsFirstImage()
    ensures var images := ProjectsData[0].images;
      var shown := ResolveUrl("https://example.org/", images[0]);
      NavigateIndex(CurrentIndexAsWritten(images, shown), |images|, Next) == 0
      && NavigateIndex(ShownIndex("https://example.org/", images, shown), |images|, Next) == 1
  {
    var base, images := "https://example.org/", ProjectsData[0].images;
    assert HasPrefix(base, "https://");
    forall j | 0 <= j < |images|
      ensures !IsAbsoluteUrl(images[j])
    {
      assert images[j][0] == 'I';
    }
    AsWrittenNavigationStuck(base, images, 0);
    assert ResolveAll(base, images)[0] == ResolveUrl(base, images[0]);
  }

  /** CORRECTED: the position of the shown image, found by comparing it with
      the project's images resolved the way the browser resolves them. */
  function ShownIndex(base: string, images: seq<string>, shownUrl: string): (r: int)
    ensures -1 <= r < |images|
    ensures r >= 0 ==> ResolveUrl(base, images[r]) == shownUrl
                       && forall j :: 0 <= j < r ==> ResolveUrl(base, images[j]) != shownUrl
    ensures r == -1 <==> shownUrl !in ResolveAll(base, images)
  {
    FindIndex(ResolveAll(base, images), shownUrl)
  }

  /** With distinct URLs the corrected lookup finds exactly the image shown. */
  lemma ShownIndexFinds(base: string, images: seq<string>, k: nat)
    requires k < |images| && DistinctUrls(base, images)
    ensures ShownIndex(base, images, ResolveUrl(base, images[k])) == k
  {
    var urls := ResolveAll(base, images);
    assert urls[k] in urls;
  }

  /** With the corrected lookup "next" and "previous" step one image forward
      or back from the one shown, wrapping at both ends. */
  lemma ShownIndexNavigates(base: string, images: seq<string>, k: nat)
    requires k < |images| && DistinctUrls(base, images)
    ensures NavigateIndex(ShownIndex(base, images, ResolveUrl(base, images[k])), |images|, Next) == (k + 1) % |images|
    ensures NavigateIndex(ShownIndex(base, images, ResolveUrl(base, images[k])), |images|, Prev)
              == if k == 0 then |images| - 1 else k - 1
  {
    ShownIndexFinds(base, images, k);
  }

  /** A `.gallery-thumb` element: its image and whether it has the class 'active'. */
  datatype Thumb = Thumb(image: string, active: bool)

  /** Exactly the thumbnail at `k` is active. */
  predicate OnlyActive(thumbs: seq<Thumb>, k: nat)
  {
    forall j :: 0 <= j < |thumbs| ==> (thumbs[j].active <==> j == k)
  }

  /** The thumbnails `openProjectGallery` creates: one per image, in order,
      only the first active. */
  function FreshThumbs(images: seq<string>): (thumbs: seq<Thumb>)
    ensures |thumbs| == |images|
    ensures forall j :: 0 <= j < |images| ==> thumbs[j].image == images[j]
    ensures OnlyActive(thumbs, 0)
  {
    seq(|images|, j requires 0 <= j < |images| => Thumb(images[j], j == 0))
  }

  /** The gallery modal: the page's base URL, the project the navigation
      buttons were last bound to, the main image's reported `src`, and the
      thumbnails. */
  class GalleryModal {
    const base: string
    var title: string
    var images: seq<string>
    var mainImage: string
    var thumbs: seq<Thumb>
    var modalActive: bool
    var navigationBound: bool
    ghost var activeIndex: nat

    /** Once a gallery has been opened, there is one thumbnail per image,
        exactly one of them is active, and the main image is that
        thumbnail's image. */
    ghost predicate Valid()
      reads this
    {
      navigationBound ==>
        && |images| > 0 && |thumbs| == |images|
        && (forall j :: 0 <= j < |thumbs| ==> thumbs[j].image == images[j])
        && activeIndex < |thumbs| && OnlyActive(thumbs, activeIndex)
        && mainImage == ResolveUrl(base, images[activeIndex])
    }

    constructor (baseUrl: string)
      ensures Valid() && base == baseUrl && !navigationBound && !modalActive && thumbs == []
    {
      base := baseUrl;
      title, images, mainImage, thumbs := "", [], "", [];
      modalActive, navigationBound := false, false;
      activeIndex := 0;
    }

    /** `openProjectGallery`: title and first image, one thumbnail per image
        with only the first active, the navigation bound to this project, and
        the modal shown.  Every project of the site has images. */
    method OpenProjectGallery(project: DataProject)
      requires Valid() && |project.images| > 0
      modifies this`title, this`images, this`mainImage, this`thumbs, this`modalActive, this`navigationBound, this`activeIndex
      ensures Valid() && navigationBound && modalActive && activeIndex == 0
      ensures title == project.title && images == project.images
      ensures mainImage == ResolveUrl(base, project.images[0])
      ensures thumbs == FreshThumbs(project.images)
    {
      title := project.title;
      mainImage := ResolveUrl(base, project.images[0]);
      thumbs := [];
      var i := 0;
      while i < |project.images|
        invariant 0 <= i <= |project.images|
        invariant thumbs == FreshThumbs(project.images)[..i]
        modifies this`thumbs
      {
        thumbs := thumbs + [Thumb(project.images[i], i == 0)];
        assert FreshThumbs(project.images)[..i + 1] == FreshThumbs(project.images)[..i] + [FreshThumbs(project.images)[i]];
        i := i + 1;
      }
      assert FreshThumbs(project.images)[..i] == FreshThumbs(project.images);
      images := project.images;
      navigationBound := true;
      activeIndex := 0;
      modalActive := true;
    }

    /** A click on thumbnail `k`: its image becomes the main image and it is
        the only active thumbnail. */
    method ClickThumbnail(k: nat)
      requires Valid() && navigationBound && k < |thumbs|
      modifies this`mainImage, this`thumbs, this`activeIndex
      ensures Valid() && activeIndex == k
      ensures mainImage == ResolveUrl(base, images[k])
      ensures |thumbs| == |old(thumbs)| && OnlyActive(thumbs, k)
    {
      mainImage := ResolveUrl(base, thumbs[k].image);
      var j := 0;
      while j < |thumbs|
        invariant 0 <= j <= |thumbs| == |old(thumbs)|
        invariant forall i :: 0 <= i < |thumbs| ==> thumbs[i].image == old(thumbs)[i].image
        invariant forall i :: 0 <= i < j ==> !thumbs[i].active
        modifies this`thumbs
      {
        thumbs := thumbs[j := thumbs[j].(active := false)];
        j := j + 1;
      }
      thumbs := thumbs[k := thumbs[k].(active := true)];
      activeIndex := k;
    }

    /** `navigateImages` with the corrected lookup: find the shown image,
        step with wrap-around, show the new image and make its thumbnail the
        only active one.  With distinct URLs the step starts from the image
        actually shown. */
    method NavigateImages(direction: Direction)
      requires Valid() && navigationBound
      modifies this`mainImage, this`thumbs, this`activeIndex
      ensures Valid()
      ensures activeIndex == NavigateIndex(ShownIndex(base, images, old(mainImage)), |images|, direction)
      ensures mainImage == ResolveUrl(base, images[activeIndex]) && OnlyActive(thumbs, activeIndex)
      ensures DistinctUrls(base, images) ==> activeIndex == NavigateIndex(old(activeIndex), |images|, direction)
    {
      var currentIndex := ShownIndex(base, images, mainImage);
      var newIndex := NavigateIndex(currentIndex, |images|, direction);
      mainImage := ResolveUrl(base, images[newIndex]);
      ToggleThumbs(newIndex);
      if DistinctUrls(base, images) {
        ShownIndexFinds(base, images, activeIndex);
      }
      activeIndex := newIndex;
    }

    /** The `forEach` of `navigateImages`: every thumbnail's 'active' class is
        set exactly when its position is `k`; their images stay. */
    method ToggleThumbs(k: nat)
      modifies this`thumbs
      ensures |thumbs| == |old(thumbs)|
      ensures forall i :: 0 <= i < |thumbs| ==> thumbs[i] == old(thumbs)[i].(active := i == k)
    {
      var j := 0;
      while j < |thumbs|
        invariant 0 <= j <= |thumbs| == |old(thumbs)|
        invariant forall i :: 0 <= i < j ==> thumbs[i] == old(thumbs)[i].(active := i == k)
        invariant forall i :: j <= i < |thumbs| ==> thumbs[i] == old(thumbs)[i]
      {
        thumbs := thumbs[j := thumbs[j].(active := j == k)];
        j := j + 1;
      }
    }
  }
}
