/**
  The product carousel of the storefront
  (frontend/src/components/ProductCarousel.tsx): how many cards a page
  shows, the clamped page index moved by the two arrow buttons, the
  buttons' disabled states, the range label, and the choice between a
  plain grid and the carousel. Only the product count matters here.
 */
module Carousel {

  /** Cards per page: three in the compact layout, four otherwise. */
  function ItemsPerView(compact: bool): (r: nat)
    ensures r > 0
    ensures compact ==> r < ItemsPerView(false)
  {
    if compact then 3 else 4
  }

  /** The last index a page can start at, so that the final page is full. */
  function MaxIndex(count: nat, perView: nat): (r: nat)
    ensures count <= perView ==> r == 0
    ensures count >= perView ==> r + perView == count
  {
    if count <= perView then 0 else count - perView
  }

  /** The two arrow buttons. */
  datatype Press = Previous | Next

  /** One press, with the index clamped to `[0, maxIndex]` on the side it moves towards. */
  function Apply(index: int, press: Press, maxIndex: nat): (r: int)
    ensures press == Previous ==> r == (if index > 0 then index - 1 else 0)
    ensures press == Next ==> r == (if index < maxIndex then index + 1 else maxIndex)
  {
    match press
    case Previous => if 0 > index - 1 then 0 else index - 1
    case Next => if maxIndex < index + 1 then maxIndex else index + 1
  }

  /** The index after a run of presses, the products staying the same. */
  function Presses(index: int, presses: seq<Press>, maxIndex: nat): int
    decreases |presses|
  {
    if presses == [] then index else Presses(Apply(index, presses[0], maxIndex), presses[1..], maxIndex)
  }

  /** From an index in range, every run of presses keeps the index in range. */
  lemma {:induction false} PressesStayInRange(index: int, presses: seq<Press>, maxIndex: nat)
    requires 0 <= index <= maxIndex
    ensures 0 <= Presses(index, presses, maxIndex) <= maxIndex
    decreases |presses|
  {
    if presses != [] {
      PressesStayInRange(Apply(index, presses[0], maxIndex), presses[1..], maxIndex);
    }
  }

  /** The index starts at 0, so whatever the user presses it stays within `[0, maxIndex]`. */
  lemma FromStartInRange(presses: seq<Press>, count: nat, compact: bool)
    ensures 0 <= Presses(0, presses, MaxIndex(count, ItemsPerView(compact))) <= MaxIndex(count, ItemsPerView(compact))
  {
    PressesStayInRange(0, presses, MaxIndex(count, ItemsPerView(compact)));
  }

  /** `k` presses of Next from 0, with nothing to clamp, land on page k. */
  lemma {:induction false} NextReaches(k: nat, maxIndex: nat, from: nat)
    requires from + k <= maxIndex
    ensures Presses(from, seq(k, _ => Next), maxIndex) == from + k
    decreases k
  {
    if k > 0 {
      assert seq(k, _ => Next)[1..] == seq(k - 1, _ => Next);
      NextReaches(k - 1, maxIndex, from + 1);
    }
  }

  /** Next then Previous returns to where it started, unless Next was clamped. */
  lemma NextThenPrevious(index: int, maxIndex: nat)
    requires 0 <= index < maxIndex
    ensures Apply(Apply(index, Next, maxIndex), Previous, maxIndex) == index
  {
  }

  /** What the component renders. */
  datatype View =
    | Grid
    | Slides(previousDisabled: bool, nextDisabled: bool, first: int, last: int, total: nat)

  /**
    The render: a plain grid when every card fits on one page, otherwise the
    carousel with its two buttons and the `first-last of total` label.
   */
  function Render(count: nat, compact: bool, index: int): (v: View)
    ensures v.Grid? <==> count <= ItemsPerView(compact)
    ensures v.Slides? ==> (v.previousDisabled <==> index == 0)
    ensures v.Slides? ==> (v.nextDisabled <==> index >= MaxIndex(count, ItemsPerView(compact)))
    ensures v.Slides? ==> v.total == count && v.first == index + 1
    ensures v.Slides? ==> v.last <= count && (v.last == count || v.last == index + ItemsPerView(compact))
    ensures v.Slides? && index + ItemsPerView(compact) <= count ==> v.last == index + ItemsPerView(compact)
  {
    var perView := ItemsPerView(compact);
    if count <= perView then Grid
    else
      var maxIndex := MaxIndex(count, perView);
      var last := if index + perView < count then index + perView else count;
      Slides(index == 0, index >= maxIndex, index + 1, last, count)
  }

  /** A disabled button would not move the index: pressing it is a no-op. */
  lemma DisabledButtonsDoNothing(count: nat, compact: bool, index: int)
    requires 0 <= index <= MaxIndex(count, ItemsPerView(compact))
    requires Render(count, compact, index).Slides?
    ensures Render(count, compact, index).previousDisabled ==>
              Apply(index, Previous, MaxIndex(count, ItemsPerView(compact))) == index
    ensures Render(count, compact, index).nextDisabled ==>
              Apply(index, Next, MaxIndex(count, ItemsPerView(compact))) == index
  {
  }

  /**
    For an index in range, the label counts a full page: it starts at
    `index + 1`, ends at most at the product count, and names exactly
    `ItemsPerView` products.
   */
  lemma LabelFullPage(count: nat, compact: bool, index: int)
    requires 0 <= index <= MaxIndex(count, ItemsPerView(compact))
    requires Render(count, compact, index).Slides?
    ensures var v := Render(count, compact, index);
      1 <= v.first <= v.last <= v.total && v.last - v.first + 1 == ItemsPerView(compact)
  {
  }

  /** The last page ends exactly at the last product, and only the last page does. */
  lemma LastPageEndsAtCount(count: nat, compact: bool, index: int)
    requires 0 <= index <= MaxIndex(count, ItemsPerView(compact))
    requires Render(count, compact, index).Slides?
    ensures Render(count, compact, index).last == count <==> index == MaxIndex(count, ItemsPerView(compact))
  {
  }

  /**
    The index is component state and is not clamped again when the product
    list shrinks. Paging to the end of ten products and then receiving six
    leaves index 6, whose label reads `7-6 of 6`.
   */
  lemma StaleIndexAfterShrink()
    ensures var index := Presses(0, seq(6, _ => Next), MaxIndex(10, ItemsPerView(false)));
      && index == 6
      && index > MaxIndex(6, ItemsPerView(false))
      && Render(6, false, index) == Slides(false, true, 7, 6, 6)
  {
    NextReaches(6, MaxIndex(10, ItemsPerView(false)), 0);
  }
}
