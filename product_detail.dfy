/** The product detail screen: the outcome of the single-product fetch,
    the choice between spinner, "not found" and the detail view, and the
    "read more" latch driven by text-layout events and button presses. */
module ProductDetail {
  import opened Catalog
  import Home

  /** A description laid out on more lines than this gets the button. */
  const LineThreshold := 3

  const ReadMore := "Read more"
  const ReadLess := "Read less"

  /** The three things the screen can draw. In the detail view,
      `numberOfLines` is the clamp on the description (None: unclamped)
      and `button` the label of the read-more button (None: not drawn). */
  datatype DetailView =
    | Spinner
    | NotFound
    | Detail(product: Product, isFavorite: bool, numberOfLines: Option<nat>, button: Option<string>)

  /** The state of one detail screen, mounted for the route's `id`. */
  class ProductDetailScreen {
    const id: int
    var product: Option<Product>
    var loading: bool
    var isExpanded: bool
    var showReadMore: bool
    var textLines: nat

    /** The latch: until it fires the line count is the initial 0; once
        it has fired the recorded count is above the threshold. The text
        can be expanded only after the latch has fired, since the button
        is drawn only then. */
    ghost predicate Valid()
      reads this
    {
      && (!showReadMore ==> textLines == 0)
      && (showReadMore ==> textLines > LineThreshold)
      && (isExpanded ==> showReadMore)
    }

    /** The screen mounts loading, with no product, collapsed, and the
        latch not fired. */
    constructor (id: int)
      ensures Valid()
      ensures this.id == id && product == None && loading
      ensures !isExpanded && !showReadMore && textLines == 0
    {
      this.id := id;
      product := None;
      loading := true;
      isExpanded := false;
      showReadMore := false;
      textLines := 0;
    }

    /** The fetch parsed a body: it becomes the product (None stands for
        a falsy body: JSON `null`, `false`, `0` or `""`) and the spinner
        goes away. */
    method FetchSucceeded(data: Option<Product>)
      requires Valid()
      modifies this
      ensures Valid()
      ensures product == data && !loading
      ensures isExpanded == old(isExpanded) && showReadMore == old(showReadMore) && textLines == old(textLines)
    {
      product := data;
      loading := false;
    }

    /** The fetch threw: the spinner goes away and the product is left as
        it was (None on a freshly mounted screen). */
    method FetchFailed()
      requires Valid()
      modifies this
      ensures Valid()
      ensures !loading && product == old(product)
      ensures isExpanded == old(isExpanded) && showReadMore == old(showReadMore) && textLines == old(textLines)
    {
      loading := false;
    }

    /** `onTextLayout` with the laid-out line count: the first layout
        above the threshold fires the latch and records its count; every
        other layout changes nothing. Once fired, the latch stays fired and
        the recorded count is never overwritten. */
    method OnTextLayout(lines: nat)
      requires Valid()
      modifies this
      ensures Valid()
      ensures if lines > LineThreshold && !old(showReadMore)
              then showReadMore && textLines == lines
              else showReadMore == old(showReadMore) && textLines == old(textLines)
      ensures old(showReadMore) ==> showReadMore && textLines == old(textLines)
      ensures isExpanded == old(isExpanded) && product == old(product) && loading == old(loading)
    {
      if lines > LineThreshold && !showReadMore {
        showReadMore := true;
        textLines := lines;
      }
    }

    /** The read-more button is drawn only once the latch has fired with
        a count above the threshold; on a consistent screen that is
        exactly when the latch has fired. */
    predicate ButtonVisible(): (b: bool)
      reads this
      ensures Valid() ==> (b <==> showReadMore)
    {
      showReadMore && textLines > LineThreshold
    }

    /** Under the latch invariant the second conjunct of the visibility
        test adds nothing: the button is drawn exactly when the latch has
        fired. */
    lemma ButtonVisibleIffLatched()
      requires Valid()
      ensures ButtonVisible() <==> showReadMore
      ensures ButtonVisible() ==> textLines > LineThreshold
    {
    }

    /** A press of the read-more button (which exists only while it is
        drawn) flips between expanded and collapsed. */
    method PressReadMore()
      requires Valid() && ButtonVisible()
      modifies this
      ensures Valid() && ButtonVisible()
      ensures isExpanded == !old(isExpanded)
      ensures showReadMore == old(showReadMore) && textLines == old(textLines)
      ensures product == old(product) && loading == old(loading)
    {
      isExpanded := !isExpanded;
    }

    /** `product && toggleFavorite(product)`: the product the press hands
        to `toggleFavorite`, or None when it does not call it. */
    method PressFavorite() returns (toggled: Option<Product>)
      ensures toggled.Some? <==> product.Some?
      ensures toggled.Some? ==> toggled.value == product.value
    {
      if product.Some? {
        toggled := Some(product.value);
      } else {
        toggled := None;
      }
    }

    /** What the screen draws: the spinner while loading, "Product not
        found." when loading ended without a product, and otherwise the
        product with its favourite flag, the description clamped to three
        lines exactly when the latch has fired and the text is collapsed,
        and the button, labelled "Read less" exactly when expanded. */
    function View(favorites: seq<Product>): (v: DetailView)
      reads this
      ensures v.Spinner? <==> loading
      ensures v.NotFound? <==> !loading && product.None?
      ensures v.Detail? <==> !loading && product.Some?
      ensures v.Detail? ==>
        && v.product == product.value
        && (v.isFavorite <==> exists i :: 0 <= i < |favorites| && favorites[i].id == product.value.id)
        && (v.numberOfLines == Some(LineThreshold) <==> !isExpanded && showReadMore)
        && (v.numberOfLines.Some? ==> v.numberOfLines == Some(LineThreshold))
        && (v.button.Some? <==> ButtonVisible())
        && (v.button.Some? ==> (v.button == Some(ReadLess) <==> isExpanded))
        && (v.button.Some? ==> (v.button == Some(ReadMore) <==> !isExpanded))
    {
      if loading then Spinner
      else if product.None? then NotFound
      else
        var p := product.value;
        Detail(
          p,
          IsFavorite(favorites, p.id),
          if !isExpanded && showReadMore then Some(LineThreshold) else None,
          if ButtonVisible() then Some(if isExpanded then ReadLess else ReadMore) else None)
    }
  }

  /** The favourite mark on a detail screen always agrees with the mark
      on the list card of a product with the same id, for the same
      favourites. */
  lemma FavoriteMarkAgrees(s: ProductDetailScreen, favorites: seq<Product>, item: Product)
    requires !s.loading && s.product.Some? && s.product.value.id == item.id
    ensures s.View(favorites).isFavorite == Home.RenderItem(item, favorites).isFavorite
  {
  }

  /** In the detail view the favourite press always reaches
      `toggleFavorite`, with the product on screen. */
  method PressFavoriteInDetail(s: ProductDetailScreen, favorites: seq<Product>) returns (toggled: Option<Product>)
    requires s.View(favorites).Detail?
    ensures toggled == Some(s.View(favorites).product)
  {
    toggled := s.PressFavorite();
  }

  /** Two presses of the read-more button restore the screen. */
  method PressTwice(s: ProductDetailScreen)
    requires s.Valid() && s.ButtonVisible()
    modifies s
    ensures s.Valid()
    ensures s.isExpanded == old(s.isExpanded) && s.showReadMore == old(s.showReadMore)
    ensures s.textLines == old(s.textLines) && s.product == old(s.product) && s.loading == old(s.loading)
  {
    s.PressReadMore();
    s.PressReadMore();
  }

  /** A mounted screen that loads a product, then lays its description
      out on 5 lines, then on 2, shows the clamped text with "Read more";
      a press expands it, and the latch keeps the count of 5. */
  method ReadMoreScenario(p: Product, favorites: seq<Product>)
  {
    var s := new ProductDetailScreen(p.id);
    assert s.View(favorites).Spinner?;
    s.FetchSucceeded(Some(p));
    s.OnTextLayout(2);
    assert !s.showReadMore && s.View(favorites).button == None;
    s.OnTextLayout(5);
    s.OnTextLayout(2);
    assert s.textLines == 5;
    assert s.View(favorites).numberOfLines == Some(LineThreshold);
    assert s.View(favorites).button == Some(ReadMore);
    s.PressReadMore();
    assert s.View(favorites).numberOfLines == None;
    assert s.View(favorites).button == Some(ReadLess);
  }
}
