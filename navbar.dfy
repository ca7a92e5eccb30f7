/**
  The sticky navbar: on every scroll event the navbar gets the class
  `scrolled` when the vertical scroll offset exceeds 50 and loses it
  otherwise.  The offset is a real number (window.scrollY can be fractional).
*/
module Navbar {

  const StickyThreshold: real := 50.0
  const ScrolledClass := "scrolled"

  /** The navbar's class list after the scroll handler runs at offset
      `scrollY` (script.js:56-61): `scrolled` is added above the threshold
      and removed otherwise; every other class is left alone. */
  function OnScroll(classes: set<string>, scrollY: real): (r: set<string>)
    ensures ScrolledClass in r <==> scrollY > StickyThreshold
    ensures r - {ScrolledClass} == classes - {ScrolledClass}
  {
    if scrollY > StickyThreshold then classes + {ScrolledClass} else classes - {ScrolledClass}
  }

  /** The handler run once per scroll event, over a series of offsets. */
  function ScrollAll(classes: set<string>, offsets: seq<real>): set<string>
    decreases |offsets|
  {
    if offsets == [] then classes
    else ScrollAll(OnScroll(classes, offsets[0]), offsets[1..])
  }

  /** The boundary is exclusive: absent at exactly 50, present at 50.5 and 51. */
  lemma ThresholdBoundary(classes: set<string>)
    ensures ScrolledClass !in OnScroll(classes, 50.0)
    ensures ScrolledClass in OnScroll(classes, 50.5) && ScrolledClass in OnScroll(classes, 51.0)
  {
  }

  /** There is no hysteresis: a scroll event overrides whatever an earlier one did. */
  lemma LaterScrollOverrides(classes: set<string>, y1: real, y2: real)
    ensures OnScroll(OnScroll(classes, y1), y2) == OnScroll(classes, y2)
  {
    var lhs, rhs := OnScroll(OnScroll(classes, y1), y2), OnScroll(classes, y2);
    assert lhs - {ScrolledClass} == rhs - {ScrolledClass};
    assert ScrolledClass in lhs <==> ScrolledClass in rhs;
  }

  /** After any series of scroll events, the navbar's classes depend only on
      the last offset. */
  lemma {:induction false} LastScrollDecides(classes: set<string>, offsets: seq<real>)
    requires offsets != []
    ensures ScrollAll(classes, offsets) == OnScroll(classes, offsets[|offsets| - 1])
    decreases |offsets|
  {
    if |offsets| > 1 {
      LastScrollDecides(OnScroll(classes, offsets[0]), offsets[1..]);
      LaterScrollOverrides(classes, offsets[0], offsets[|offsets| - 1]);
    }
  }
}
