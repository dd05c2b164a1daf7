/** One prompt as a card: its category status, the "no configuration" badge,
    and the preview panel behind a toggle. The category function is the one
    the table uses. */
module PromptCard {
  import opened Wrappers
  import opened Text
  import opened PromptTypes
  import opened PromptsList

  /** The status indicator's kind. */
  datatype StatusKind = Active | Selected | Inactive

  datatype CategoryStatus = CategoryStatus(kind: StatusKind, text: string)

  /** `getCategoryStatus(category)`: only sales is active and only support is
      selected; demo and custom share the inactive kind. */
  function CategoryStatusOf(category: Category): (r: CategoryStatus)
    ensures r.kind == Active <==> category == Sales
    ensures r.kind == Selected <==> category == Support
    ensures r.kind == Inactive <==> category == Demo || category == Custom
    ensures r.text == BadgeLabel(category)
  {
    match category
    case Sales => CategoryStatus(Active, "Sales")
    case Support => CategoryStatus(Selected, "Support")
    case Demo => CategoryStatus(Inactive, "Demo")
    case Custom => CategoryStatus(Inactive, "Custom")
  }

  /** The text of the category badge. */
  function BadgeLabel(category: Category): string {
    match category
    case Sales => "Sales"
    case Support => "Support"
    case Demo => "Demo"
    case Custom => "Custom"
  }

  /** The status labels tell the categories apart, although the kinds do not. */
  lemma StatusLabelsAreDistinct(a: Category, b: Category)
    requires CategoryStatusOf(a).text == CategoryStatusOf(b).text
    ensures a == b
  {
    assert |BadgeLabel(a)| == [5, 7, 4, 6][match a case Sales => 0 case Support => 1 case Demo => 2 case Custom => 3];
    assert |BadgeLabel(b)| == [5, 7, 4, 6][match b case Sales => 0 case Support => 1 case Demo => 2 case Custom => 3];
  }

  /** The "No additional configuration" badge: neither optional field is a
      non-empty string. */
  predicate ShowsNoConfiguration(p: Prompt): (r: bool)
    ensures r <==>
      && (p.openingLine.None? || p.openingLine == Some(""))
      && (p.customPrompt.None? || p.customPrompt == Some(""))
  {
    !Truthy(p.openingLine) && !Truthy(p.customPrompt)
  }

  /** The quick preview panel. */
  predicate ShowsPreview(showPreview: bool, p: Prompt): (r: bool)
    ensures r ==> showPreview && !ShowsNoConfiguration(p)
  {
    showPreview && (Truthy(p.openingLine) || Truthy(p.customPrompt))
  }

  /** A card with the badge never shows a preview, whatever the toggle says;
      a card without it shows one exactly when toggled. */
  lemma PreviewNeedsConfiguration(showPreview: bool, p: Prompt)
    ensures ShowsNoConfiguration(p) ==> !ShowsPreview(showPreview, p)
    ensures !ShowsNoConfiguration(p) ==> (ShowsPreview(showPreview, p) <==> showPreview)
  {
  }

  class Card {
    var showPreview: bool

    constructor()
      ensures !showPreview
    {
      showPreview := false;
    }

    /** The Preview button's label. */
    function ToggleLabel(): (r: string)
      reads this
      ensures r == "Hide" <==> showPreview
    {
      if showPreview then "Hide" else "Preview"
    }

    /** The Preview button flips the toggle. */
    method TogglePreview()
      modifies this
      ensures showPreview == !old(showPreview)
    {
      showPreview := !showPreview;
    }
  }
}
