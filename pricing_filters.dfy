/**
 * The pricing-table filter of `initPricingFilters`: a row of filter buttons,
 * each carrying an optional `data-category`, and the table rows, each carrying
 * its category. Clicking a button makes it the only active one and shows the
 * rows of its category, or every row for the category "all".
 */
module PricingFilters {
  import opened Wrappers

  /** The category of the button that shows every row. */
  const AllCategory := "all"

  /** Whether `filterTable(filter)` leaves a row of category `rowCategory` displayed. */
  predicate Shows(rowCategory: string, filter: Option<string>)
  {
    filter == Some(AllCategory) || filter == Some(rowCategory)
  }

  /** The display of every row after `filterTable(filter)`: true for '' and false for 'none'. */
  function ShownRows(rowCategories: seq<string>, filter: Option<string>): seq<bool>
  {
    seq(|rowCategories|, k requires 0 <= k < |rowCategories| => Shows(rowCategories[k], filter))
  }

  /** The `active` class of `count` buttons when only button `b` has it. */
  function OnlyActive(count: nat, b: int): seq<bool>
  {
    seq(count, k => k == b)
  }

  /**
   * Filtering by "all" displays every row, and any other filter displays exactly
   * the rows of its category.
   */
  lemma FilterSelectsCategory(rowCategories: seq<string>, filter: Option<string>)
    ensures |ShownRows(rowCategories, filter)| == |rowCategories|
    ensures filter == Some(AllCategory) ==> forall k :: 0 <= k < |rowCategories| ==> ShownRows(rowCategories, filter)[k]
    ensures filter != Some(AllCategory) ==>
      forall k :: 0 <= k < |rowCategories| ==> (ShownRows(rowCategories, filter)[k] <==> filter == Some(rowCategories[k]))
  {
  }

  /**
   * A button without a category hides every row; two buttons with different
   * categories other than "all" never display the same row.
   */
  lemma FiltersAreDisjoint(rowCategories: seq<string>, c1: Option<string>, c2: Option<string>)
    requires c1 != c2 && c1 != Some(AllCategory) && c2 != Some(AllCategory)
    ensures forall k :: 0 <= k < |rowCategories| ==>
      !(ShownRows(rowCategories, c1)[k] && ShownRows(rowCategories, c2)[k])
    ensures c1 == None ==> forall k :: 0 <= k < |rowCategories| ==> !ShownRows(rowCategories, c1)[k]
  {
  }

  /** The index of the first button whose category is "all", if there is one. */
  function FirstAllButton(buttonCategories: seq<Option<string>>): (r: Option<nat>)
    ensures r.Some? ==> r.value < |buttonCategories| && buttonCategories[r.value] == Some(AllCategory)
    ensures r.Some? ==> forall k :: 0 <= k < r.value ==> buttonCategories[k] != Some(AllCategory)
    ensures r.None? ==> forall k :: 0 <= k < |buttonCategories| ==> buttonCategories[k] != Some(AllCategory)
  {
    if |buttonCategories| == 0 then None
    else if buttonCategories[0] == Some(AllCategory) then Some(0)
    else match FirstAllButton(buttonCategories[1..])
      case None => None
      case Some(j) => Some(j + 1)
  }

  /** The filter buttons and the pricing rows, with the state the handlers write. */
  class Filters {
    /** `data-category` of each `tr[data-category]` row. */
    const rowCategories: seq<string>
    /** `data-category` of each `.filter-btn`, absent when the attribute is missing. */
    const buttonCategories: seq<Option<string>>
    /** Each row is displayed (`display` is '' rather than 'none'). */
    var rowShown: seq<bool>
    /** Each button has the `active` class. */
    var buttonActive: seq<bool>

    ghost predicate Valid()
      reads this
    {
      |rowShown| == |rowCategories| && |buttonActive| == |buttonCategories|
    }

    /**
     * Sets up the filter: clicks the first "all" button if there is one, then
     * displays every row whatever that click did.
     */
    constructor (rows: seq<string>, buttons: seq<Option<string>>, initialShown: seq<bool>, initialActive: seq<bool>)
      requires |initialShown| == |rows| && |initialActive| == |buttons|
      ensures Valid() && rowCategories == rows && buttonCategories == buttons
      ensures rowShown == ShownRows(rows, Some(AllCategory))
      ensures buttonActive == match FirstAllButton(buttons)
                              case Some(b) => OnlyActive(|buttons|, b)
                              case None => initialActive
    {
      rowCategories := rows;
      buttonCategories := buttons;
      rowShown := initialShown;
      buttonActive := initialActive;
      new;
      var allButton := FirstAllButton(buttons);
      if allButton.Some? {
        Click(allButton.value);
      }
      FilterTable(Some(AllCategory));
    }

    /** Displays the rows `filter` selects and hides all others. */
    method FilterTable(filter: Option<string>)
      requires Valid()
      modifies this`rowShown
      ensures Valid()
      ensures rowShown == ShownRows(rowCategories, filter)
    {
      var k := 0;
      while k < |rowCategories|
        invariant 0 <= k <= |rowCategories| == |rowShown|
        invariant forall j :: 0 <= j < k ==> rowShown[j] == Shows(rowCategories[j], filter)
      {
        if filter == Some(AllCategory) || filter == Some(rowCategories[k]) {
          rowShown := rowShown[k := true];
        } else {
          rowShown := rowShown[k := false];
        }
        k := k + 1;
      }
    }

    /** Button `b` was clicked: it alone becomes active and the table is filtered by its category. */
    method Click(b: nat)
      requires Valid() && b < |buttonCategories|
      modifies this`rowShown, this`buttonActive
      ensures Valid()
      ensures buttonActive == OnlyActive(|buttonCategories|, b)
      ensures rowShown == ShownRows(rowCategories, buttonCategories[b])
    {
      var k := 0;
      while k < |buttonActive|
        modifies this`buttonActive
        invariant 0 <= k <= |buttonActive| == |buttonCategories|
        invariant forall j :: 0 <= j < k ==> !buttonActive[j]
      {
        buttonActive := buttonActive[k := false];
        k := k + 1;
      }
      buttonActive := buttonActive[b := true];
      FilterTable(buttonCategories[b]);
    }
  }

  /**
   * `initPricingFilters`: without buttons or without rows nothing is set up
   * (a missing section or table yields none of them); otherwise a filter that
   * displays every row.
   */
  method InitPricingFilters(rows: seq<string>, buttons: seq<Option<string>>, initialShown: seq<bool>, initialActive: seq<bool>)
    returns (f: Filters?)
    requires |initialShown| == |rows| && |initialActive| == |buttons|
    ensures f == null <==> |rows| == 0 || |buttons| == 0
    ensures f != null ==> fresh(f) && f.Valid() && f.rowShown == ShownRows(rows, Some(AllCategory))
    ensures f != null ==> f.rowCategories == rows && f.buttonCategories == buttons
    ensures f != null ==> f.buttonActive == match FirstAllButton(buttons)
                                            case Some(b) => OnlyActive(|buttons|, b)
                                            case None => initialActive
  {
    if |buttons| == 0 || |rows| == 0 {
      return null;
    }
    f := new Filters(rows, buttons, initialShown, initialActive);
  }
}
