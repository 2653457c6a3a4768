/**
 * The product modal's carousel: three cards at a time over the products handed to the
 * show-product-card tool, with previous/next buttons and one page indicator per page of three.
 */
module WidgetCarousel {
  import opened JsValues
  import opened WidgetTools

  /** Cards shown at once. */
  const MaxDisplay: nat := 3

  /**
   * The number of page indicators rendered: one per started page of three cards, and none (nor
   * any arrow button) when all cards fit on one page.
   */
  function IndicatorCount(count: nat): (pages: nat)
    ensures count > MaxDisplay ==> pages >= 2 && (pages - 1) * MaxDisplay < count <= pages * MaxDisplay
    ensures count <= MaxDisplay ==> pages == 0
  {
    if count > MaxDisplay then (count + MaxDisplay - 1) / MaxDisplay else 0
  }

  /** The `currentIndex` that `bindProductCardEvents` keeps for a modal of `count` cards. */
  class ProductCarousel {
    const count: nat
    var currentIndex: int

    /** The first shown card exists (or the index is 0), and a single page never moves. */
    ghost predicate Valid()
      reads this
    {
      0 <= currentIndex && (currentIndex < count || currentIndex == 0) &&
      (count <= MaxDisplay ==> currentIndex == 0)
    }

    constructor (count: nat)
      ensures this.count == count && currentIndex == 0 && Valid()
    {
      this.count := count;
      currentIndex := 0;
    }

    /** The previous button: back by one page, clamped at the first card; nothing at the start. */
    method Prev()
      requires Valid()
      modifies this
      ensures Valid()
      ensures old(currentIndex) == 0 ==> currentIndex == 0
      ensures old(currentIndex) > 0 ==>
                currentIndex < old(currentIndex) && old(currentIndex) - MaxDisplay <= currentIndex &&
                (currentIndex == 0 || currentIndex == old(currentIndex) - MaxDisplay)
    {
      if currentIndex > 0 {
        currentIndex := if currentIndex - MaxDisplay > 0 then currentIndex - MaxDisplay else 0;
      }
    }

    /**
     * The next button: forward by one page but never past the last full page of three; nothing
     * once the last card is shown. After a move three cards are on screen.
     */
    method Next()
      requires Valid()
      modifies this
      ensures Valid()
      ensures old(currentIndex) + MaxDisplay >= count ==> currentIndex == old(currentIndex)
      ensures old(currentIndex) + MaxDisplay < count ==>
                old(currentIndex) < currentIndex <= old(currentIndex) + MaxDisplay &&
                currentIndex + MaxDisplay <= count &&
                (currentIndex == old(currentIndex) + MaxDisplay || currentIndex + MaxDisplay == count)
    {
      if currentIndex + MaxDisplay < count {
        currentIndex := if count - MaxDisplay < currentIndex + MaxDisplay then count - MaxDisplay else currentIndex + MaxDisplay;
      }
    }

    /** A click on page indicator `page`: jump to that page's first card, which is then the active page. */
    method GoToPage(page: nat)
      requires Valid()
      requires count > MaxDisplay && page < IndicatorCount(count)
      modifies this
      ensures Valid()
      ensures currentIndex == page * MaxDisplay
      ensures currentIndex / MaxDisplay == page
    {
      currentIndex := page * MaxDisplay;
    }

    /**
     * `updateDisplay`: the cards made visible, the active indicator and the button states. At most
     * three consecutive cards from `currentIndex` on are shown, as many as there are; previous is
     * disabled exactly on the first card and next exactly when the last card is on screen.
     */
    method UpdateDisplay() returns (shown: seq<nat>, activePage: int, prevDisabled: bool, nextDisabled: bool)
      requires Valid()
      ensures |shown| <= MaxDisplay
      ensures count > 0 ==> |shown| >= 1
      ensures forall k :: 0 <= k < |shown| ==> shown[k] == currentIndex + k && shown[k] < count
      ensures |shown| == MaxDisplay || currentIndex + |shown| == count
      ensures activePage == currentIndex / MaxDisplay
      ensures count > MaxDisplay ==> activePage < IndicatorCount(count)
      ensures prevDisabled <==> currentIndex == 0
      ensures nextDisabled <==> count == 0 || currentIndex + |shown| == count
    {
      var last := if currentIndex + MaxDisplay < count then currentIndex + MaxDisplay else count;
      shown := [];
      var i := currentIndex;
      while i < last
        invariant currentIndex <= i <= last
        invariant |shown| == i - currentIndex
        invariant forall k :: 0 <= k < |shown| ==> shown[k] == currentIndex + k && shown[k] < count
      {
        shown := shown + [i];
        i := i + 1;
      }
      activePage := currentIndex / MaxDisplay;
      prevDisabled := currentIndex == 0;
      nextDisabled := currentIndex + MaxDisplay >= count;
    }
  }

  /**
   * `handleShowProductCard` with its event binding: the modal opens exactly when the parameters
   * hold products, with a carousel over them at the first page.
   */
  method OpenProductModal(params: JsValue) returns (d: CardDisplay, carousel: ProductCarousel?)
    ensures d == ShowProductCard(params)
    ensures carousel != null <==> d.ProductModal?
    ensures carousel != null ==> fresh(carousel) && carousel.Valid() &&
                                 carousel.count == |d.products| && carousel.currentIndex == 0
  {
    d := ShowProductCard(params);
    if d.ProductModal? {
      carousel := new ProductCarousel(|d.products|);
    } else {
      carousel := null;
    }
  }
}
