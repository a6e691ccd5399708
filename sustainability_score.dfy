/**
 * The score badge: a 0-100 sustainability score is drawn as a coloured
 * disc with an optional word label, both chosen by the same four
 * thresholds (80, 60, 40, 20), and sized by a size keyword.
 */
module SustainabilityScore {
  import opened JsRuntime

  /** The five bands a score falls into, from worst to best. */
  datatype Band = Bad | Poor | Average | Good | Excellent

  /** The lower bound of each band above Bad, ascending. */
  const Thresholds: seq<real> := [20.0, 40.0, 60.0, 80.0]

  /** The bands in ascending order: the band of a score is indexed by how many thresholds it reaches. */
  const Bands: seq<Band> := [Bad, Poor, Average, Good, Excellent]

  /** Position of a band in the ascending order. */
  function Rank(b: Band): (i: nat)
    ensures i < |Bands| && Bands[i] == b
  {
    match b
    case Bad => 0
    case Poor => 1
    case Average => 2
    case Good => 3
    case Excellent => 4
  }

  /** How many of the thresholds `ts` the score reaches. */
  function Reached(score: real, ts: seq<real>): (n: nat)
    ensures n <= |ts|
  {
    if ts == [] then 0
    else (if score >= ts[0] then 1 else 0) + Reached(score, ts[1..])
  }

  /** Reaching thresholds is monotone in the score. */
  lemma {:induction false} ReachedMonotone(s1: real, s2: real, ts: seq<real>)
    requires s1 <= s2
    ensures Reached(s1, ts) <= Reached(s2, ts)
  {
    if ts != [] {
      ReachedMonotone(s1, s2, ts[1..]);
    }
  }

  /** The band of a score, defined by counting the thresholds it reaches. */
  function BandOf(score: real): Band
  {
    Bands[Reached(score, Thresholds)]
  }

  /** The band boundaries: each band is exactly the half-open interval between two thresholds. */
  lemma BandOfThresholds(score: real)
    ensures BandOf(score) == Excellent <==> score >= 80.0
    ensures BandOf(score) == Good <==> 60.0 <= score < 80.0
    ensures BandOf(score) == Average <==> 40.0 <= score < 60.0
    ensures BandOf(score) == Poor <==> 20.0 <= score < 40.0
    ensures BandOf(score) == Bad <==> score < 20.0
  {
    var ts := Thresholds;
    assert ts[1..][1..][1..][1..] == [];
    assert Reached(score, ts[1..][1..][1..]) == if score >= 80.0 then 1 else 0;
    assert Reached(score, ts[1..][1..]) == (if score >= 60.0 then 1 else 0) + (if score >= 80.0 then 1 else 0);
    assert Reached(score, ts[1..]) == (if score >= 40.0 then 1 else 0) + Reached(score, ts[1..][1..]);
    assert Reached(score, ts) == (if score >= 20.0 then 1 else 0) + Reached(score, ts[1..]);
  }

  /** A higher score never falls into a lower band. */
  lemma BandMonotone(s1: real, s2: real)
    requires s1 <= s2
    ensures Rank(BandOf(s1)) <= Rank(BandOf(s2))
  {
    ReachedMonotone(s1, s2, Thresholds);
  }

  /** The disc colour of each band. */
  function BandColor(b: Band): string
  {
    match b
    case Excellent => "bg-green-500"
    case Good => "bg-green-400"
    case Average => "bg-yellow-500"
    case Poor => "bg-orange-500"
    case Bad => "bg-red-500"
  }

  /** The word label of each band. */
  function BandLabel(b: Band): string
  {
    match b
    case Excellent => "Excellent"
    case Good => "Good"
    case Average => "Average"
    case Poor => "Poor"
    case Bad => "Bad"
  }

  const ColorClasses: set<string> := {"bg-green-500", "bg-green-400", "bg-yellow-500", "bg-orange-500", "bg-red-500"}
  const Labels: set<string> := {"Excellent", "Good", "Average", "Poor", "Bad"}

  /** `getColor`: the first threshold the score reaches, from the top, picks the colour. */
  function GetColor(score: real): (c: string)
    ensures c in ColorClasses
  {
    if score >= 80.0 then "bg-green-500"
    else if score >= 60.0 then "bg-green-400"
    else if score >= 40.0 then "bg-yellow-500"
    else if score >= 20.0 then "bg-orange-500"
    else "bg-red-500"
  }

  /** The word under the disc, chosen by the same thresholds as the colour. */
  function Label(score: real): (l: string)
    ensures l in Labels
  {
    if score >= 80.0 then "Excellent"
    else if score >= 60.0 then "Good"
    else if score >= 40.0 then "Average"
    else if score >= 20.0 then "Poor"
    else "Bad"
  }

  /** The colour is the colour of the score's band. */
  lemma GetColorIsBandColor(score: real)
    ensures GetColor(score) == BandColor(BandOf(score))
  {
    BandOfThresholds(score);
  }

  /** The label is the label of the score's band. */
  lemma LabelIsBandLabel(score: real)
    ensures Label(score) == BandLabel(BandOf(score))
  {
    BandOfThresholds(score);
  }

  /** Different bands have different colours and different labels. */
  lemma BandNamesDistinct(b1: Band, b2: Band)
    requires b1 != b2
    ensures BandColor(b1) != BandColor(b2)
    ensures BandLabel(b1) != BandLabel(b2)
  {
  }

  /** Colour and label always agree: each colour goes with exactly one label. */
  lemma ColorAndLabelAgree(score: real)
    ensures GetColor(score) == "bg-green-500" <==> Label(score) == "Excellent"
    ensures GetColor(score) == "bg-green-400" <==> Label(score) == "Good"
    ensures GetColor(score) == "bg-yellow-500" <==> Label(score) == "Average"
    ensures GetColor(score) == "bg-orange-500" <==> Label(score) == "Poor"
    ensures GetColor(score) == "bg-red-500" <==> Label(score) == "Bad"
  {
    GetColorIsBandColor(score);
    LabelIsBandLabel(score);
  }

  /** The tailwind classes of the disc and of the number inside it. */
  datatype SizeClasses = SizeClasses(container: string, text: string)

  const DefaultSize: string := "md"

  const SmallClasses: SizeClasses := SizeClasses("w-10 h-10", "text-xs")
  const MediumClasses: SizeClasses := SizeClasses("w-14 h-14", "text-sm")
  const LargeClasses: SizeClasses := SizeClasses("w-20 h-20", "text-xl")

  /** `getSizeClasses`: 'sm' and 'lg' have their own classes; every other keyword gets the medium ones. */
  function GetSizeClasses(size: string): (c: SizeClasses)
    ensures size == "sm" ==> c == SmallClasses
    ensures size == "lg" ==> c == LargeClasses
    ensures size != "sm" && size != "lg" ==> c == MediumClasses
  {
    match size
    case "sm" => SizeClasses("w-10 h-10", "text-xs")
    case "lg" => SizeClasses("w-20 h-20", "text-xl")
    case _ => SizeClasses("w-14 h-14", "text-sm")
  }

  /** Any keyword other than 'sm' and 'lg' is drawn like the default size 'md'. */
  lemma UnknownSizeIsDefault(size: string)
    requires size != "sm" && size != "lg"
    ensures GetSizeClasses(size) == GetSizeClasses(DefaultSize)
    ensures GetSizeClasses(DefaultSize) == MediumClasses
  {
  }

  /** The three declared sizes are drawn differently. */
  lemma DeclaredSizesDistinct(s1: string, s2: string)
    requires s1 in {"sm", "md", "lg"} && s2 in {"sm", "md", "lg"}
    requires GetSizeClasses(s1) == GetSizeClasses(s2)
    ensures s1 == s2
  {
  }

  /** The component's props; None is a prop left out, which takes its default. */
  datatype Props = Props(score: real, size: Option<string>, showLabel: Option<bool>)

  /** What the component draws. */
  datatype Badge = Badge(sizes: SizeClasses, color: string, caption: Option<string>)

  /** The component: the disc's classes and colour, and the label unless `showLabel` is false. */
  function Render(p: Props): (b: Badge)
    ensures b.caption.Some? <==> p.showLabel != Some(false)
    ensures b.caption.Some? ==> b.caption.value == BandLabel(BandOf(p.score))
    ensures b.color == BandColor(BandOf(p.score))
    ensures p.size.Some? ==> b.sizes == GetSizeClasses(p.size.value)
    ensures p.size.None? ==> b.sizes == MediumClasses
  {
    GetColorIsBandColor(p.score);
    LabelIsBandLabel(p.score);
    var size := match p.size case Some(s) => s case None => DefaultSize;
    var showLabel := match p.showLabel case Some(v) => v case None => true;
    Badge(GetSizeClasses(size), GetColor(p.score), if showLabel then Some(Label(p.score)) else None)
  }
}
