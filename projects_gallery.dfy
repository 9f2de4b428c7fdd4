/** The `ProjectsGallery` class of js/projects.js: an accordion of project
    panels of which at most one is expanded at a time, with hover effects on
    the collapsed panels and a one-way entrance style.  A panel element is
    identified by its position in the page's list of `.project-panel`
    elements, and its inline styles and classes are a value in that list. */
module ProjectPanels {
  import opened Options

  /** The inline style properties the gallery writes; '' when unset. */
  datatype Style = Style(opacity: string, transform: string, transition: string)

  /** The inline style of one `.project-tags span`. */
  datatype TagStyle = TagStyle(boxShadow: string, transition: string)

  /** One `.project-panel` element and the parts of it the gallery styles. */
  datatype Panel = Panel(
    expanded: bool,             // has the class 'expanded'
    style: Style,               // the panel's own inline style
    details: Style,             // its `.project-details`
    achievements: seq<Style>,   // its `.achievement` cards, in order
    image: Option<Style>,       // its `.project-image`, if it has one
    placeholder: Option<Style>, // its `.project-placeholder`, if it has one
    tags: seq<TagStyle>)        // its `.project-tags span` elements, in order

  const Unset := Style("", "", "")
  const TagGlow := "0 0 10px rgba(0, 212, 255, 0.3)"
  const HoverTransition := "transform 0.3s ease"
  const TagTransition := "box-shadow 0.3s ease"

  /** At most one panel is expanded, and it is the one `current` names. */
  predicate SingleExpanded(panels: seq<Panel>, current: Option<nat>)
  {
    && (current.Some? ==> current.value < |panels| && panels[current.value].expanded)
    && (forall k :: 0 <= k < |panels| && panels[k].expanded ==> current == Some(k))
  }

  /** `SingleExpanded` means no two distinct panels are expanded together. */
  lemma SingleExpandedAtMostOne(panels: seq<Panel>, current: Option<nat>, j: nat, k: nat)
    requires SingleExpanded(panels, current)
    requires j < |panels| && k < |panels| && panels[j].expanded && panels[k].expanded
    ensures j == k
  {
  }

  /** `collapsePanel` on one panel: the class goes, and the inline opacity,
      transform and transition of its details and achievements are reset. */
  function Collapsed(p: Panel): (r: Panel)
    ensures !r.expanded && r.details == Unset
    ensures |r.achievements| == |p.achievements| && forall k :: 0 <= k < |r.achievements| ==> r.achievements[k] == Unset
    ensures r.style == p.style && r.image == p.image && r.placeholder == p.placeholder && r.tags == p.tags
  {
    p.(expanded := false,
       details := Unset,
       achievements := seq(|p.achievements|, k requires 0 <= k < |p.achievements| => Unset))
  }

  /** The synchronous part of `expandPanel` on one panel: the class is added
      and every achievement is made transparent and shrunk, ready for its
      timed entrance. */
  function ExpandStarted(p: Panel): (r: Panel)
    ensures r.expanded
    ensures |r.achievements| == |p.achievements|
    ensures forall k :: 0 <= k < |r.achievements| ==>
              r.achievements[k] == Style("0", "scale(0.8)", p.achievements[k].transition)
    ensures r.style == p.style && r.details == p.details && r.image == p.image
            && r.placeholder == p.placeholder && r.tags == p.tags
  {
    p.(expanded := true,
       achievements := seq(|p.achievements|, k requires 0 <= k < |p.achievements| =>
                              p.achievements[k].(opacity := "0", transform := "scale(0.8)")))
  }

  /** The state the timers of `expandPanel` leave once all have fired. */
  function EntranceSettled(p: Panel): (r: Panel)
    ensures r.details.opacity == "1" && r.details.transform == "translateY(0)"
    ensures |r.achievements| == |p.achievements|
    ensures forall k :: 0 <= k < |r.achievements| ==>
              r.achievements[k].opacity == "1" && r.achievements[k].transform == "scale(1)"
    ensures r.expanded == p.expanded && r.style == p.style && r.image == p.image
            && r.placeholder == p.placeholder && r.tags == p.tags
  {
    p.(details := Style("1", "translateY(0)", "opacity 0.5s ease, transform 0.5s ease"),
       achievements := seq(|p.achievements|, k requires 0 <= k < |p.achievements| =>
                              Style("1", "scale(1)", "opacity 0.3s ease, transform 0.3s ease")))
  }

  /** `addHoverEffect`: scale the image, tilt the placeholder, make every tag glow. */
  function WithHover(p: Panel): (r: Panel)
    ensures r.image.Some? == p.image.Some? && r.placeholder.Some? == p.placeholder.Some?
    ensures r.image.Some? ==> r.image.value == Style(p.image.value.opacity, "scale(1.05)", HoverTransition)
    ensures r.placeholder.Some? ==>
              r.placeholder.value == Style(p.placeholder.value.opacity, "scale(1.2) rotate(5deg)", HoverTransition)
    ensures |r.tags| == |p.tags| && forall k :: 0 <= k < |r.tags| ==> r.tags[k] == TagStyle(TagGlow, TagTransition)
    ensures r.expanded == p.expanded && r.style == p.style && r.details == p.details
            && r.achievements == p.achievements
  {
    p.(image := if p.image.Some? then Some(p.image.value.(transform := "scale(1.05)", transition := HoverTransition)) else None,
       placeholder := if p.placeholder.Some? then Some(p.placeholder.value.(transform := "scale(1.2) rotate(5deg)", transition := HoverTransition)) else None,
       tags := seq(|p.tags|, k requires 0 <= k < |p.tags| => TagStyle(TagGlow, TagTransition)))
  }

  /** `removeHoverEffect`: clear the image and placeholder transforms and the
      tags' glow; the transitions stay as they are. */
  function WithoutHover(p: Panel): (r: Panel)
    ensures r.image.Some? == p.image.Some? && r.placeholder.Some? == p.placeholder.Some?
    ensures r.image.Some? ==> r.image.value == p.image.value.(transform := "")
    ensures r.placeholder.Some? ==> r.placeholder.value == p.placeholder.value.(transform := "")
    ensures |r.tags| == |p.tags| && forall k :: 0 <= k < |r.tags| ==> r.tags[k] == TagStyle("", p.tags[k].transition)
    ensures r.expanded == p.expanded && r.style == p.style && r.details == p.details
            && r.achievements == p.achievements
  {
    p.(image := if p.image.Some? then Some(p.image.value.(transform := "")) else None,
       placeholder := if p.placeholder.Some? then Some(p.placeholder.value.(transform := "")) else None,
       tags := seq(|p.tags|, k requires 0 <= k < |p.tags| => p.tags[k].(boxShadow := "")))
  }

  /** Hovering in and out clears the image and placeholder transforms and
      every tag's glow, and leaves the hover transitions set; nothing but
      those styles changes. */
  lemma HoverRoundTrip(p: Panel)
    ensures var q := WithoutHover(WithHover(p));
      && q.expanded == p.expanded && q.style == p.style && q.details == p.details
      && q.achievements == p.achievements
      && q.image.Some? == p.image.Some? && q.placeholder.Some? == p.placeholder.Some?
      && (q.image.Some? ==> q.image.value.transform == "" && q.image.value.transition == HoverTransition)
      && (q.placeholder.Some? ==> q.placeholder.value.transform == "" && q.placeholder.value.transition == HoverTransition)
      && |q.tags| == |p.tags|
      && (forall k :: 0 <= k < |q.tags| ==> q.tags[k] == TagStyle("", TagTransition))
  {
  }

  /** Expanding a panel and collapsing it again leaves it as collapsing it
      directly would: the expansion leaves no trace. */
  lemma CollapseUndoesExpand(p: Panel)
    ensures Collapsed(ExpandStarted(p)) == Collapsed(p)
    ensures !Collapsed(p).expanded && ExpandStarted(p).expanded
  {
  }

  /** None of the panel transformations touches the panel's own inline
      style, so once the entrance has shown a panel it stays shown. */
  lemma EntranceStyleKept(p: Panel)
    ensures Collapsed(p).style == p.style && ExpandStarted(p).style == p.style
    ensures EntranceSettled(p).style == p.style
    ensures WithHover(p).style == p.style && WithoutHover(p).style == p.style
  {
  }

  /** Adding the hover effect twice is the same as adding it once. */
  lemma HoverIdempotent(p: Panel)
    ensures WithHover(WithHover(p)) == WithHover(p)
  {
  }

  class ProjectsGallery {
    var panels: seq<Panel>
    var currentExpanded: Option<nat>

    ghost predicate Valid()
      reads this
    {
      SingleExpanded(panels, currentExpanded)
    }

    /** `new ProjectsGallery()`: take the page's panels (none expanded yet),
        no current panel, and give every panel its hidden entrance style. */
    constructor (initial: seq<Panel>)
      requires forall k :: 0 <= k < |initial| ==> !initial[k].expanded
      ensures Valid() && currentExpanded == None && |panels| == |initial|
      ensures forall k :: 0 <= k < |panels| ==>
                panels[k] == initial[k].(style := Style("0", "translateY(50px)", "opacity 0.6s ease, transform 0.6s ease"))
    {
      panels := initial;
      currentExpanded := None;
      new;
      SetupIntersectionObserver();
    }

    /** `setupIntersectionObserver`: every panel starts transparent and
        shifted down, with a transition for its entrance. */
    method SetupIntersectionObserver()
      requires Valid()
      modifies this`panels
      ensures Valid() && |panels| == |old(panels)|
      ensures forall k :: 0 <= k < |panels| ==>
                panels[k] == old(panels)[k].(style := Style("0", "translateY(50px)", "opacity 0.6s ease, transform 0.6s ease"))
    {
      var i := 0;
      while i < |panels|
        invariant 0 <= i <= |panels| == |old(panels)|
        invariant forall k :: 0 <= k < i ==>
                    panels[k] == old(panels)[k].(style := Style("0", "translateY(50px)", "opacity 0.6s ease, transform 0.6s ease"))
        invariant forall k :: i <= k < |panels| ==> panels[k] == old(panels)[k]
      {
        panels := panels[i := panels[i].(style := Style("0", "translateY(50px)", "opacity 0.6s ease, transform 0.6s ease"))];
        i := i + 1;
      }
    }

    /** The observer callback for a panel that intersects the viewport: it
        becomes opaque and moves into place.  No method ever reverts this. */
    method OnIntersect(i: nat)
      requires Valid() && i < |panels|
      modifies this`panels
      ensures Valid()
      ensures panels == old(panels)[i := old(panels)[i].(style := old(panels)[i].style.(opacity := "1", transform := "translateY(0)"))]
    {
      panels := panels[i := panels[i].(style := panels[i].style.(opacity := "1", transform := "translateY(0)"))];
    }

    /** `togglePanel`: the expanded panel collapses; any other panel first
        collapses the expanded one (if any) and is then expanded and recorded. */
    method TogglePanel(i: nat)
      requires Valid() && i < |panels|
      modifies this`panels, this`currentExpanded
      ensures Valid() && |panels| == |old(panels)|
      ensures old(currentExpanded) == Some(i) ==>
                currentExpanded == None && panels == old(panels)[i := Collapsed(old(panels)[i])]
      ensures old(currentExpanded) == None ==>
                currentExpanded == Some(i) && panels == old(panels)[i := ExpandStarted(old(panels)[i])]
      ensures old(currentExpanded).Some? && old(currentExpanded) != Some(i) ==>
                currentExpanded == Some(i)
                && panels == old(panels)[old(currentExpanded).value := Collapsed(old(panels)[old(currentExpanded).value])]
                                        [i := ExpandStarted(old(panels)[i])]
      ensures forall k :: 0 <= k < |panels| ==> panels[k].style == old(panels)[k].style
    {
      if currentExpanded == Some(i) {
        CollapsePanel(i);
      } else {
        if currentExpanded.Some? {
          CollapsePanel(currentExpanded.value);
        }
        ExpandPanel(i);
      }
    }

    /** The synchronous part of `expandPanel`, called when no panel is expanded. */
    method ExpandPanel(i: nat)
      requires Valid() && i < |panels| && currentExpanded == None
      modifies this`panels, this`currentExpanded
      ensures Valid()
      ensures currentExpanded == Some(i) && panels == old(panels)[i := ExpandStarted(old(panels)[i])]
    {
      currentExpanded := Some(i);
      var p := panels[i].(expanded := true);
      var achievements := p.achievements;
      var j := 0;
      while j < |achievements|
        invariant 0 <= j <= |achievements| == |p.achievements|
        invariant forall k :: 0 <= k < j ==>
                    achievements[k] == p.achievements[k].(opacity := "0", transform := "scale(0.8)")
        invariant forall k :: j <= k < |achievements| ==> achievements[k] == p.achievements[k]
      {
        achievements := achievements[j := achievements[j].(opacity := "0", transform := "scale(0.8)")];
        j := j + 1;
      }
      assert achievements == ExpandStarted(panels[i]).achievements;
      panels := panels[i := p.(achievements := achievements)];
    }

    /** `collapsePanel` on the expanded panel: it loses the class, the gallery
        forgets it, and its details and achievements lose their inline styles. */
    method CollapsePanel(i: nat)
      requires Valid() && currentExpanded == Some(i)
      modifies this`panels, this`currentExpanded
      ensures Valid()
      ensures currentExpanded == None && panels == old(panels)[i := Collapsed(old(panels)[i])]
    {
      var p := panels[i].(expanded := false);
      currentExpanded := None;
      p := p.(details := Unset);
      var achievements := p.achievements;
      var j := 0;
      while j < |achievements|
        invariant 0 <= j <= |achievements| == |p.achievements|
        invariant forall k :: 0 <= k < j ==> achievements[k] == Unset
        invariant forall k :: j <= k < |achievements| ==> achievements[k] == p.achievements[k]
      {
        achievements := achievements[j := Unset];
        j := j + 1;
      }
      assert achievements == Collapsed(panels[i]).achievements;
      panels := panels[i := p.(achievements := achievements)];
    }

    /** The timers `expandPanel` starts, once all of them have fired: the
        details and achievements fade and scale in.  They fire whether or not
        the panel was collapsed in the meantime. */
    method EntranceTimersFired(i: nat)
      requires Valid() && i < |panels|
      modifies this`panels
      ensures Valid() && currentExpanded == old(currentExpanded)
      ensures panels == old(panels)[i := EntranceSettled(old(panels)[i])]
    {
      var p := panels[i].(details := Style("1", "translateY(0)", "opacity 0.5s ease, transform 0.5s ease"));
      var achievements := p.achievements;
      var j := 0;
      while j < |achievements|
        invariant 0 <= j <= |achievements| == |p.achievements|
        invariant forall k :: 0 <= k < j ==> achievements[k] == Style("1", "scale(1)", "opacity 0.3s ease, transform 0.3s ease")
      {
        achievements := achievements[j := Style("1", "scale(1)", "opacity 0.3s ease, transform 0.3s ease")];
        j := j + 1;
      }
      assert achievements == EntranceSettled(panels[i]).achievements;
      panels := panels[i := p.(achievements := achievements)];
    }

    /** A click anywhere: `target` is the panel the click landed in, None when
        it landed outside every panel.  The panel's own listener toggles it;
        the document listener then collapses the expanded panel only for a
        click outside all panels. */
    method OnClick(target: Option<nat>)
      requires Valid() && (target.Some? ==> target.value < |panels|)
      modifies this`panels, this`currentExpanded
      ensures Valid()
      ensures target.None? && old(currentExpanded).Some? ==>
                currentExpanded == None
                && panels == old(panels)[old(currentExpanded).value := Collapsed(old(panels)[old(currentExpanded).value])]
      ensures target.None? && old(currentExpanded).None? ==> panels == old(panels) && currentExpanded == None
      ensures target.Some? && old(currentExpanded) == target ==>
                currentExpanded == None
                && panels == old(panels)[target.value := Collapsed(old(panels)[target.value])]
      ensures target.Some? && old(currentExpanded) == None ==>
                currentExpanded == target
                && panels == old(panels)[target.value := ExpandStarted(old(panels)[target.value])]
      ensures target.Some? && old(currentExpanded).Some? && old(currentExpanded) != target ==>
                currentExpanded == target
                && panels == old(panels)[old(currentExpanded).value := Collapsed(old(panels)[old(currentExpanded).value])]
                                        [target.value := ExpandStarted(old(panels)[target.value])]
    {
      if target.Some? {
        TogglePanel(target.value);
      } else if currentExpanded.Some? {
        CollapsePanel(currentExpanded.value);
      }
    }

    /** The keydown listener: Escape collapses the expanded panel, if any. */
    method OnKeyDown(key: string)
      requires Valid()
      modifies this`panels, this`currentExpanded
      ensures Valid() && currentExpanded == (if key == "Escape" then None else old(currentExpanded))
      ensures key == "Escape" && old(currentExpanded).Some? ==>
                panels == old(panels)[old(currentExpanded).value := Collapsed(old(panels)[old(currentExpanded).value])]
      ensures !(key == "Escape" && old(currentExpanded).Some?) ==> panels == old(panels)
    {
      if key == "Escape" && currentExpanded.Some? {
        CollapsePanel(currentExpanded.value);
      }
    }

    /** `mouseenter`: the hover effect is added unless the panel is the expanded one. */
    method OnMouseEnter(i: nat)
      requires Valid() && i < |panels|
      modifies this`panels
      ensures Valid() && currentExpanded == old(currentExpanded)
      ensures panels == if currentExpanded == Some(i) then old(panels) else old(panels)[i := WithHover(old(panels)[i])]
    {
      if currentExpanded != Some(i) {
        AddHoverEffect(i);
      }
    }

    /** `mouseleave`: the hover effect is removed unless the panel is the expanded one. */
    method OnMouseLeave(i: nat)
      requires Valid() && i < |panels|
      modifies this`panels
      ensures Valid() && currentExpanded == old(currentExpanded)
      ensures panels == if currentExpanded == Some(i) then old(panels) else old(panels)[i := WithoutHover(old(panels)[i])]
    {
      if currentExpanded != Some(i) {
        RemoveHoverEffect(i);
      }
    }

    /** `addHoverEffect` on one panel. */
    method AddHoverEffect(i: nat)
      requires Valid() && i < |panels|
      modifies this`panels
      ensures Valid()
      ensures panels == old(panels)[i := WithHover(old(panels)[i])]
    {
      var p := panels[i];
      if p.image.Some? {
        p := p.(image := Some(p.image.value.(transform := "scale(1.05)", transition := HoverTransition)));
      }
      if p.placeholder.Some? {
        p := p.(placeholder := Some(p.placeholder.value.(transform := "scale(1.2) rotate(5deg)", transition := HoverTransition)));
      }
      var tags := p.tags;
      var j := 0;
      while j < |tags|
        invariant 0 <= j <= |tags| == |p.tags|
        invariant forall k :: 0 <= k < j ==> tags[k] == TagStyle(TagGlow, TagTransition)
      {
        tags := tags[j := TagStyle(TagGlow, TagTransition)];
        j := j + 1;
      }
      assert tags == WithHover(panels[i]).tags;
      panels := panels[i := p.(tags := tags)];
    }

    /** `removeHoverEffect` on one panel. */
    method RemoveHoverEffect(i: nat)
      requires Valid() && i < |panels|
      modifies this`panels
      ensures Valid()
      ensures panels == old(panels)[i := WithoutHover(old(panels)[i])]
    {
      var p := panels[i];
      if p.image.Some? {
        p := p.(image := Some(p.image.value.(transform := "")));
      }
      if p.placeholder.Some? {
        p := p.(placeholder := Some(p.placeholder.value.(transform := "")));
      }
      var tags := p.tags;
      var j := 0;
      while j < |tags|
        invariant 0 <= j <= |tags| == |p.tags|
        invariant forall k :: 0 <= k < j ==> tags[k] == p.tags[k].(boxShadow := "")
        invariant forall k :: j <= k < |tags| ==> tags[k] == p.tags[k]
      {
        tags := tags[j := tags[j].(boxShadow := "")];
        j := j + 1;
      }
      assert tags == WithoutHover(panels[i]).tags;
      panels := panels[i := p.(tags := tags)];
    }
  }
}
