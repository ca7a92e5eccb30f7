/**
  The sidebar's active-section tracker (activateSidebarButton).  For every
  section with an id, in document order, the section is "in view" when
  offsetTop - 100 < scrollY <= offsetTop - 100 + offsetHeight; for each such
  section every sidebar button first loses `active`, and the button whose
  href is '#' + the section's id gets it back.  So the last section in view
  decides, and with no section in view nothing changes.
*/
module Sidebar {
  import opened Wrappers

  /** A `section[id]` element: its id and layout box. */
  datatype Section = Section(id: string, offsetTop: int, offsetHeight: int)

  /** A `.sidebar-btn`: its href attribute (absent when the markup has none)
      and whether its class list holds `active`. */
  datatype SidebarButton = SidebarButton(href: Option<string>, active: bool)

  /** The sticky header's allowance subtracted from each section's top. */
  const HeaderAllowance := 100

  /** The test at script.js:78: the range is open below and closed above.
      A section of no height is never in view. */
  predicate InView(s: Section, scrollY: real)
    ensures InView(s, scrollY) ==> s.offsetHeight > 0
  {
    var sectionTop := s.offsetTop - HeaderAllowance;
    scrollY > sectionTop as real && scrollY <= (sectionTop + s.offsetHeight) as real
  }

  /** The ends of the range: a section is not yet in view when the offset is
      exactly its top less the allowance, and still in view at its bottom. */
  lemma InViewBoundaries(s: Section)
    ensures !InView(s, (s.offsetTop - HeaderAllowance) as real)
    ensures s.offsetHeight > 0 ==> InView(s, (s.offsetTop - HeaderAllowance + s.offsetHeight) as real)
  {
  }

  /** Two sections laid out back to back are never in view together, so for
      such a layout at most one section triggers the inner loop. */
  lemma AdjacentSectionsDisjoint(upper: Section, lower: Section, scrollY: real)
    requires lower.offsetTop == upper.offsetTop + upper.offsetHeight
    ensures !(InView(upper, scrollY) && InView(lower, scrollY))
  {
  }

  /** The button that links to the section with this id. */
  predicate Targets(b: SidebarButton, id: string) {
    b.href == Some("#" + id)
  }

  /** The inner loop for one section in view: every button's `active` is
      reset and then set exactly when it targets `id`; hrefs are kept. */
  function Highlight(buttons: seq<SidebarButton>, id: string): (r: seq<SidebarButton>)
    ensures |r| == |buttons|
    ensures forall k :: 0 <= k < |r| ==> r[k].href == buttons[k].href
    ensures forall k :: 0 <= k < |r| ==> (r[k].active <==> Targets(buttons[k], id))
  {
    seq(|buttons|, k requires 0 <= k < |buttons| => buttons[k].(active := Targets(buttons[k], id)))
  }

  /** The outer loop over `sections` in document order, as a fold. */
  function Scan(buttons: seq<SidebarButton>, sections: seq<Section>, scrollY: real): seq<SidebarButton>
    decreases |sections|
  {
    if sections == [] then buttons
    else
      var before := Scan(buttons, sections[..|sections| - 1], scrollY);
      var last := sections[|sections| - 1];
      if InView(last, scrollY) then Highlight(before, last.id) else before
  }

  /** The id of the last section, in document order, that is in view. */
  function LastInView(sections: seq<Section>, scrollY: real): (r: Option<string>)
    ensures r.None? <==> forall k :: 0 <= k < |sections| ==> !InView(sections[k], scrollY)
    ensures r.Some? ==>
      exists k :: 0 <= k < |sections| && InView(sections[k], scrollY) && sections[k].id == r.value
        && forall j :: k < j < |sections| ==> !InView(sections[j], scrollY)
    decreases |sections|
  {
    if sections == [] then None
    else if InView(sections[|sections| - 1], scrollY) then Some(sections[|sections| - 1].id)
    else
      var r := LastInView(sections[..|sections| - 1], scrollY);
      assert forall k :: 0 <= k < |sections| - 1 ==> sections[..|sections| - 1][k] == sections[k];
      r
  }

  /** A later highlight overrides an earlier one completely. */
  lemma HighlightOverrides(buttons: seq<SidebarButton>, first: string, second: string)
    ensures Highlight(Highlight(buttons, first), second) == Highlight(buttons, second)
  {
    var lhs, rhs := Highlight(Highlight(buttons, first), second), Highlight(buttons, second);
    assert |lhs| == |rhs|;
    forall k | 0 <= k < |lhs| ensures lhs[k] == rhs[k] {
      assert lhs[k].href == buttons[k].href && rhs[k].href == buttons[k].href;
    }
  }

  /** The loop's net effect: unchanged when no section is in view, otherwise
      the highlight of the last section in view. */
  lemma {:induction false} ScanIsLastInView(buttons: seq<SidebarButton>, sections: seq<Section>, scrollY: real)
    ensures Scan(buttons, sections, scrollY) ==
      match LastInView(sections, scrollY)
      case None => buttons
      case Some(id) => Highlight(buttons, id)
    decreases |sections|
  {
    if sections != [] {
      var prefix := sections[..|sections| - 1];
      var last := sections[|sections| - 1];
      ScanIsLastInView(buttons, prefix, scrollY);
      if InView(last, scrollY) {
        match LastInView(prefix, scrollY)
        case None =>
        case Some(id) => HighlightOverrides(buttons, id, last.id);
      }
    }
  }

  /** activateSidebarButton (script.js:70-87): nested loops that clear and
      set the `active` flag of the buttons in place. */
  method ActivateSidebarButton(sections: seq<Section>, buttons: array<SidebarButton>, scrollY: real)
    modifies buttons
    ensures buttons[..] == Scan(old(buttons[..]), sections, scrollY)
    ensures forall k :: 0 <= k < buttons.Length ==> buttons[k].href == old(buttons[k].href)
    ensures LastInView(sections, scrollY).None? ==> buttons[..] == old(buttons[..])
    ensures LastInView(sections, scrollY).Some? ==>
      forall k :: 0 <= k < buttons.Length ==>
        (buttons[k].active <==> buttons[k].href == Some("#" + LastInView(sections, scrollY).value))
  {
    ghost var initial := buttons[..];
    var i := 0;
    while i < |sections|
      invariant 0 <= i <= |sections|
      invariant buttons[..] == Scan(initial, sections[..i], scrollY)
    {
      var section := sections[i];
      var sectionHeight := section.offsetHeight;
      var sectionTop := section.offsetTop - HeaderAllowance;
      ghost var before := buttons[..];
      if scrollY > sectionTop as real && scrollY <= (sectionTop + sectionHeight) as real {
        var j := 0;
        while j < buttons.Length
          invariant 0 <= j <= buttons.Length
          invariant forall k :: 0 <= k < j ==> buttons[k] == before[k].(active := Targets(before[k], section.id))
          invariant forall k :: j <= k < buttons.Length ==> buttons[k] == before[k]
        {
          var b := buttons[j].(active := false);
          if b.href == Some("#" + section.id) {
            b := b.(active := true);
          }
          buttons[j] := b;
          j := j + 1;
        }
        assert buttons[..] == Highlight(before, section.id);
      }
      assert sections[..i + 1][..i] == sections[..i];
      i := i + 1;
    }
    assert sections[..i] == sections;
    ScanIsLastInView(initial, sections, scrollY);
  }

  /** Two sections whose ranges overlap: the later one in document order wins. */
  lemma LaterSectionWins()
    ensures
      var about := Section("about", 500, 400);
      var events := Section("events", 700, 400);
      var buttons := [SidebarButton(Some("#about"), true), SidebarButton(Some("#events"), false)];
      InView(about, 700.0) && InView(events, 700.0)
      && Scan(buttons, [about, events], 700.0)
         == [SidebarButton(Some("#about"), false), SidebarButton(Some("#events"), true)]
  {
    var about := Section("about", 500, 400);
    var events := Section("events", 700, 400);
    var buttons := [SidebarButton(Some("#about"), true), SidebarButton(Some("#events"), false)];
    assert InView(events, 700.0);
    assert LastInView([about, events], 700.0) == Some("events");
    ScanIsLastInView(buttons, [about, events], 700.0);
    var r := Highlight(buttons, "events");
    assert "#" + "events" == "#events";
    assert "#about" != "#events" by { assert "#about"[1] != "#events"[1]; }
    assert r == [SidebarButton(Some("#about"), false), SidebarButton(Some("#events"), true)];
  }
}
