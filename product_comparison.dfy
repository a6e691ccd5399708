/**
 * The comparison page: a scanned product next to one chosen alternative,
 * four sustainability metrics contrasting the two, and the selection the
 * user changes by tapping an alternative's thumbnail.
 */
module ProductComparison {
  import opened JsRuntime
  import opened ProductCard
  import SustainabilityScore

  /** One row of the comparison; both values are percentages. */
  datatype Metric = Metric(name: string, original: int, alternative: int, unitLabel: string)

  const MetricNames: seq<string> := ["Carbon Footprint", "Water Usage", "Energy Efficiency", "Recyclability"]
  const MetricUnits: seq<string> := ["kg CO2", "liters", "kWh", "percentage"]
  const OriginalValues: seq<int> := [40, 45, 50, 30]
  /** The alternative's values when its score is above 80. */
  const PremiumValues: seq<int> := [85, 88, 90, 95]
  /** The alternative's values otherwise. */
  const StandardValues: seq<int> := [65, 70, 75, 80]

  /** The metrics treat an alternative as premium only strictly above 80: an Excellent score other than 80 itself. */
  predicate IsPremium(p: Product)
    ensures IsPremium(p) <==>
      SustainabilityScore.BandOf(p.sustainabilityScore) == SustainabilityScore.Excellent && p.sustainabilityScore != 80.0
  {
    SustainabilityScore.BandOfThresholds(p.sustainabilityScore);
    p.sustainabilityScore > 80.0
  }

  /** `selected ? (selected.sustainabilityScore > 80 ? premium : standard) : 0` */
  function AlternativeValue(selected: Option<Product>, premium: int, standard: int): int
  {
    if selected.Some? then (if IsPremium(selected.value) then premium else standard) else 0
  }

  /**
   * The four metrics of the page. The original's values are fixed; the
   * alternative's values are 0 with nothing selected, and otherwise one of
   * two fixed rows chosen by the selected alternative's score.
   */
  function ComparisonMetrics(selected: Option<Product>): (ms: seq<Metric>)
    ensures |ms| == 4
    ensures forall i :: 0 <= i < 4 ==>
      && ms[i].name == MetricNames[i]
      && ms[i].unitLabel == MetricUnits[i]
      && ms[i].original == OriginalValues[i]
    ensures forall i :: 0 <= i < 4 ==> 0 <= ms[i].original <= 100 && 0 <= ms[i].alternative <= 100
    ensures selected.None? ==> forall i :: 0 <= i < 4 ==> ms[i].alternative == 0
    ensures selected.Some? ==> forall i :: 0 <= i < 4 ==> ms[i].alternative > ms[i].original
    ensures selected.Some? ==> forall i :: 0 <= i < 4 ==>
      ms[i].alternative == if IsPremium(selected.value) then PremiumValues[i] else StandardValues[i]
  {
    [ Metric("Carbon Footprint", 40, AlternativeValue(selected, 85, 65), "kg CO2"),
      Metric("Water Usage", 45, AlternativeValue(selected, 88, 70), "liters"),
      Metric("Energy Efficiency", 50, AlternativeValue(selected, 90, 75), "kWh"),
      Metric("Recyclability", 30, AlternativeValue(selected, 95, 80), "percentage") ]
  }

  /** The original's column never depends on the selection. */
  lemma OriginalsIgnoreSelection(a: Option<Product>, b: Option<Product>)
    ensures forall i :: 0 <= i < 4 ==> ComparisonMetrics(a)[i].original == ComparisonMetrics(b)[i].original
  {
  }

  /** Of the selected alternative, only whether its score is above 80 matters. */
  lemma MetricsDependOnlyOnPremium(p: Product, q: Product)
    requires IsPremium(p) == IsPremium(q)
    ensures ComparisonMetrics(Some(p)) == ComparisonMetrics(Some(q))
  {
  }

  /** A better-scored alternative never shows a lower metric value. */
  lemma MetricsMonotone(p: Product, q: Product)
    requires p.sustainabilityScore <= q.sustainabilityScore
    ensures forall i :: 0 <= i < 4 ==>
      ComparisonMetrics(Some(p))[i].alternative <= ComparisonMetrics(Some(q))[i].alternative
  {
  }

  /**
   * The card's leaf badge (from 80, inclusive) and the page's premium
   * values (above 80, strictly) disagree on exactly one score: 80 itself.
   */
  lemma LeafBadgeVersusPremium(p: Product)
    ensures IsPremium(p) ==> ShowsLeafBadge(p.sustainabilityScore)
    ensures ShowsLeafBadge(p.sustainabilityScore) && !IsPremium(p) <==> p.sustainabilityScore == 80.0
  {
  }

  /**
   * The default-selection effect: with nothing selected and a non-empty
   * list, select the first alternative; otherwise leave the selection.
   */
  function DefaultSelection(alternatives: seq<Product>, selected: Option<Product>): (r: Option<Product>)
    ensures selected.Some? ==> r == selected
    ensures r.Some? <==> selected.Some? || |alternatives| > 0
    ensures selected.None? && r.Some? ==> r.value == alternatives[0]
  {
    if |alternatives| > 0 && selected.None? then Some(alternatives[0]) else selected
  }

  /** The effect settles after one run: running it again changes nothing. */
  lemma DefaultSelectionSettles(alternatives: seq<Product>, selected: Option<Product>)
    ensures DefaultSelection(alternatives, DefaultSelection(alternatives, selected)) == DefaultSelection(alternatives, selected)
  {
  }

  /** What choosing the alternative does: a toast and, two seconds later, the way home. */
  datatype ChoiceEffect = ChoiceEffect(toastTitle: string, toastDescription: string, toastDuration: nat, navigateTo: string, navigateDelay: nat)

  const ChooseEffect: ChoiceEffect := ChoiceEffect(
    "Great choice!",
    "You've earned 25 Green Points for choosing a sustainable alternative.",
    5000, "/", 2000)

  /** The page's state: the product, its alternatives and the selected alternative. */
  class ComparisonPage {
    const product: Product
    const alternatives: seq<Product>
    var selected: Option<Product>

    /** Whatever is selected is one of the page's alternatives. */
    ghost predicate Valid()
      reads this
    {
      selected.Some? ==> selected.value in alternatives
    }

    /** The first render: nothing selected yet. */
    constructor (product: Product, alternatives: seq<Product>)
      ensures Valid()
      ensures this.product == product && this.alternatives == alternatives && selected.None?
    {
      this.product := product;
      this.alternatives := alternatives;
      selected := None;
    }

    /** The default-selection effect, run after a render. */
    method SelectDefault()
      requires Valid()
      modifies this
      ensures Valid()
      ensures selected == DefaultSelection(alternatives, old(selected))
    {
      if |alternatives| > 0 && selected.None? {
        selected := Some(alternatives[0]);
      }
    }

    /** Tapping an alternative's thumbnail (shown when there is more than one alternative) selects it. */
    method SelectThumbnail(alt: Product)
      requires Valid() && |alternatives| > 1 && alt in alternatives
      modifies this
      ensures Valid()
      ensures selected == Some(alt)
    {
      selected := Some(alt);
    }

    /** "Choose This Alternative": the toast and navigation, only when an alternative is selected. */
    method ChooseAlternative() returns (effect: Option<ChoiceEffect>)
      ensures effect.None? <==> selected.None?
      ensures effect.Some? ==> effect.value == ChooseEffect
    {
      if selected.Some? {
        effect := Some(ChooseEffect);
      } else {
        effect := None;
      }
    }

    /** The page shows "Loading comparison..." until an alternative is selected: exactly while no thumbnail is ringed. */
    predicate IsLoading()
      reads this
      ensures IsLoading() <==> forall alt :: !IsHighlighted(alt)
    {
      if selected.Some? then
        assert IsHighlighted(selected.value);
        false
      else true
    }

    /** A thumbnail is ringed when its id is the selected alternative's id; on a valid page, that is an alternative's id. */
    predicate IsHighlighted(alt: Product)
      reads this
      ensures IsHighlighted(alt) ==> selected.Some?
      ensures Valid() && IsHighlighted(alt) ==> exists a :: a in alternatives && a.id == alt.id
    {
      selected.Some? && selected.value.id == alt.id
    }

    /** The metrics the page currently shows. */
    function Metrics(): (ms: seq<Metric>)
      reads this
      ensures |ms| == 4
      ensures !IsLoading() ==> forall i :: 0 <= i < 4 ==> ms[i].alternative > ms[i].original
    {
      ComparisonMetrics(selected)
    }
  }

  /** After the first render and its effect, the page is loaded exactly when there are alternatives, showing the first. */
  method MountPage(product: Product, alternatives: seq<Product>) returns (page: ComparisonPage)
    ensures page.Valid() && page.alternatives == alternatives
    ensures page.IsLoading() <==> |alternatives| == 0
    ensures !page.IsLoading() ==> page.selected == Some(alternatives[0]) && page.IsHighlighted(alternatives[0])
  {
    page := new ComparisonPage(product, alternatives);
    page.SelectDefault();
  }

  // ---- The page's sample data ----

  const OriginalProduct: Product := Product(
    "1", "Standard Water Bottle",
    "https://images.unsplash.com/photo-1523362628745-0c100150b504?w=500&auto=format&fit=crop&q=60&ixlib=rb-4.0.3&ixid=M3wxMjA3fDB8MHxzZWFyY2h8Mnx8cGxhc3RpYyUyMHdhdGVyJTIwYm90dGxlfGVufDB8fDB8fHww",
    "$14.99", 42.0, "AquaBasic", Some("Drinkware"))

  const AlternativeProducts: seq<Product> := [
    Product(
      "1a", "Eco-friendly Water Bottle",
      "https://images.unsplash.com/photo-1602143407151-7111542de6e8?w=500&auto=format&fit=crop&q=60&ixlib=rb-4.0.3&ixid=M3wxMjA3fDB8MHxzZWFyY2h8MTV8fHdhdGVyJTIwYm90dGxlfGVufDB8fDB8fHww",
      "$24.99", 92.0, "GreenLife", Some("Drinkware")),
    Product(
      "1b", "Recycled Plastic Bottle",
      "https://images.unsplash.com/photo-1602143407151-7111542de6e8?w=500&auto=format&fit=crop&q=60&ixlib=rb-4.0.3&ixid=M3wxMjA3fDB8MHxzZWFyY2h8MTV8fHdhdGVyJTIwYm90dGxlfGVufDB8fDB8fHww",
      "$19.99", 78.0, "EcoFlow", Some("Drinkware"))]

  /** With the sample data the page opens on the 92-point bottle and its premium row; the 78-point one shows the standard row. */
  lemma SampleComparison()
    ensures DefaultSelection(AlternativeProducts, None) == Some(AlternativeProducts[0])
    ensures forall i :: 0 <= i < 4 ==> ComparisonMetrics(Some(AlternativeProducts[0]))[i].alternative == PremiumValues[i]
    ensures forall i :: 0 <= i < 4 ==> ComparisonMetrics(Some(AlternativeProducts[1]))[i].alternative == StandardValues[i]
  {
  }
}
