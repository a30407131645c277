/**
 * The canned country recommendation the front end can show for a product
 * while no model is connected: a fixed table keyed by the lower-cased
 * product name, a fallback entry for every other product, and the chart
 * series derived from the chosen entry's countries.
 */
module Recommendations {
  import opened Wrappers

  datatype Country = Country(name: string, volume: nat, reason: string)

  /** One bar of the import-volume chart, in millions. */
  datatype ChartPoint = ChartPoint(country: string, volume: real)

  datatype Recommendation = Recommendation(
    recommendation: string,
    hsCodeInfo: string,
    countries: seq<Country>,
    reason: string,
    chartData: seq<ChartPoint>)

  const Million: nat := 1000000

  /** The HS-code line of the fallback entry; no table entry uses it. */
  const PendingAnalysis: string := "NLP analizi devam ediyor..."

  /** The keys of the table, compared with the lower-cased product exactly. */
  predicate IsKey(key: string) {
    key == OliveOil || key == SolarPanel || key == Textile
  }

  /** Volumes strictly decrease down the list: the best market comes first. */
  predicate Descending(countries: seq<Country>) {
    forall i, j :: 0 <= i < j < |countries| ==> countries[i].volume > countries[j].volume
  }

  predicate WholeMillions(countries: seq<Country>) {
    forall i :: 0 <= i < |countries| ==> countries[i].volume % Million == 0
  }

  /** Shape every entry of the table and the fallback share. */
  predicate WellFormed(r: Recommendation) {
    && |r.countries| == 3
    && Descending(r.countries)
    && WholeMillions(r.countries)
    && r.chartData == []
  }

  // Country names as the table spells them.

  const Germany: string := "Germany"
  const France: string := "France"
  const Japan: string := "Japan"
  const Usa: string := "United States of America"
  const Australia: string := "Australia"
  const Brazil: string := "Brazil"
  const Spain: string := "Spain"
  const Uk: string := "United Kingdom"
  const Netherlands: string := "Netherlands"
  const Sweden: string := "Sweden"

  // The texts of the table, word for word.

  const OliveOil: string := "zeytinyağı"
  const SolarPanel: string := "güneş paneli"
  const Textile: string := "tekstil"

  const OliveOilHeadline: string := "\"Zeytinyağı\" için en uygun potansiyel barındıran ülkeler:"
  const OliveOilHsCode: string := "NLP analizi sonucunda ürününüz için en olası HS Kodu: 1509."
  const OliveOilReason: string := "Önerilen ülkeler, yüksek ithalat hacmine sahip olmalarına rağmen, sizin gibi yeni bir ihracatçı için düşük rekabet avantajı sunmaktadır."
  const GermanyOliveOil: string := "Yüksek talep ve Türkiye'den düşük rekabet."
  const FranceReason: string := "Büyük pazar ve güçlü ticaret ilişkileri."
  const JapanReason: string := "Yüksek kaliteye verilen önem ve artan talep."

  const SolarHeadline: string := "\"Güneş Paneli\" için en uygun potansiyel barındıran ülkeler:"
  const SolarHsCode: string := "NLP analizi sonucunda ürününüz için en olası HS Kodu: 8541.40."
  const SolarReason: string := "Bu ülkeler, yenilenebilir enerjiye olan küresel talebin hızla artması nedeniyle yüksek büyüme potansiyeline sahiptir."
  const UsaReason: string := "Yenilenebilir enerji yatırımları ve teşvikler."
  const AustraliaReason: string := "Yüksek güneşlenme süresi ve evsel talep."
  const BrazilReason: string := "Devlet destekleri ve gelişmekte olan pazar."

  const TextileHeadline: string := "\"Tekstil Sektörü\" için en uygun potansiyel barındıran ülkeler:"
  const TextileHsCode: string := "Sektör geniş olduğu için birden fazla HS Kodu olabilir."
  const TextileReason: string := "Bu ülkelerde Türk tekstil ürünlerine karşı yüksek talep ve olumlu algı bulunmaktadır."
  const SpainReason: string := "Hızlı moda endüstrisi ve güçlü perakende pazarı."
  const UkReason: string := "Marka sadakati ve e-ticaretin yaygınlığı."
  const NetherlandsReason: string := "Tekstil ticaretinde önemli bir merkez konumu."

  const FallbackTail: string := "\" için en çok potansiyel barındıran ülkeler:"
  const FallbackReason: string := "Önerdiğimiz ülkeler, yüksek ithalat hacmine sahip olmalarına rağmen, sizin gibi yeni bir ihracatçı için düşük rekabet avantajı sunmaktadır."
  const GermanyFallback: string := "Yüksek talep ve az yerel üretim."
  const SwedenReason: string := "Yüksek büyüme potansiyeli ve yenilikçi pazar."

  const OliveOilEntry: Recommendation := Recommendation(OliveOilHeadline, OliveOilHsCode,
    [ Country(Germany, 150000000, GermanyOliveOil),
      Country(France, 120000000, FranceReason),
      Country(Japan, 90000000, JapanReason) ],
    OliveOilReason, [])

  const SolarPanelEntry: Recommendation := Recommendation(SolarHeadline, SolarHsCode,
    [ Country(Usa, 3000000000, UsaReason),
      Country(Australia, 1500000000, AustraliaReason),
      Country(Brazil, 800000000, BrazilReason) ],
    SolarReason, [])

  const TextileEntry: Recommendation := Recommendation(TextileHeadline, TextileHsCode,
    [ Country(Spain, 2000000000, SpainReason),
      Country(Uk, 1800000000, UkReason),
      Country(Netherlands, 1000000000, NetherlandsReason) ],
    TextileReason, [])

  /** Three countries, best market first, whole millions, no chart yet. */
  lemma WellFormedEntry(r: Recommendation)
    requires r == OliveOilEntry || r == SolarPanelEntry || r == TextileEntry
    ensures WellFormed(r) && r.hsCodeInfo != PendingAnalysis
  {
    var v := [r.countries[0].volume, r.countries[1].volume, r.countries[2].volume];
    assert v[0] > v[1] > v[2];
    assert v[0] % Million == 0 && v[1] % Million == 0 && v[2] % Million == 0;
  }

  /** The own entries of the response table. */
  function Table(key: string): (r: Option<Recommendation>)
    ensures r.Some? <==> IsKey(key)
    ensures r.Some? ==> WellFormed(r.value) && r.value.hsCodeInfo != PendingAnalysis
  {
    var entry :=
      if key == OliveOil then Some(OliveOilEntry)
      else if key == SolarPanel then Some(SolarPanelEntry)
      else if key == Textile then Some(TextileEntry)
      else None;
    assert entry.Some? ==> WellFormed(entry.value) && entry.value.hsCodeInfo != PendingAnalysis by {
      if entry.Some? { WellFormedEntry(entry.value); }
    }
    entry
  }

  /** The headline of the fallback entry, which quotes the product as typed. */
  function FallbackHeadline(product: string): string {
    "\"" + product + FallbackTail
  }

  /** The entry used for every product that is not a key of the table. */
  function Fallback(product: string): (r: Recommendation)
    ensures WellFormed(r) && r.hsCodeInfo == PendingAnalysis
  {
    Recommendation(FallbackHeadline(product), PendingAnalysis,
      [ Country(Germany, 150000000, GermanyFallback),
        Country(France, 120000000, FranceReason),
        Country(Sweden, 80000000, SwedenReason) ],
      FallbackReason, [])
  }

  /** The chart series: one bar per country, in order, volume in millions. */
  function Chart(countries: seq<Country>): (chart: seq<ChartPoint>)
    ensures |chart| == |countries|
    ensures forall i :: 0 <= i < |chart| ==>
      && chart[i].country == countries[i].name
      && chart[i].volume * Million as real == countries[i].volume as real
  {
    seq(|countries|, i requires 0 <= i < |countries| =>
      ChartPoint(countries[i].name, countries[i].volume as real / Million as real))
  }

  /** A volume that is a whole number of millions charts as that whole number. */
  lemma ExactMillions(volume: nat, charted: real)
    requires volume % Million == 0
    requires charted * Million as real == volume as real
    ensures charted == (volume / Million) as real
  {
    var m := volume / Million;
    assert volume == m * Million;
    assert (m * Million) as real == m as real * Million as real;
  }

  /** The fixed entry chosen for `lowered`, with its chart series filled in. */
  function WithChart(r: Recommendation): (charted: Recommendation)
    requires WellFormed(r)
    ensures charted == r.(chartData := charted.chartData)
    ensures |charted.chartData| == 3
    ensures forall i :: 0 <= i < 3 ==>
      && charted.chartData[i].country == r.countries[i].name
      && charted.chartData[i].volume == (r.countries[i].volume / Million) as real
  {
    var chart := Chart(r.countries);
    assert forall i :: 0 <= i < 3 ==> chart[i].volume == (r.countries[i].volume / Million) as real by {
      forall i | 0 <= i < 3
        ensures chart[i].volume == (r.countries[i].volume / Million) as real
      {
        ExactMillions(r.countries[i].volume, chart[i].volume);
      }
    }
    r.(chartData := chart)
  }

  /**
   * The canned response for `product`, where `lowered` is the product's
   * `toLowerCase()`: the table entry when `lowered` is one of its keys,
   * otherwise the fallback that quotes `product` itself.
   */
  function DummyResponse(product: string, lowered: string): (r: Recommendation)
    ensures IsKey(lowered) <==> r.hsCodeInfo != PendingAnalysis
    ensures IsKey(lowered) ==> r.(chartData := []) == Table(lowered).value
    ensures !IsKey(lowered) ==> r.(chartData := []) == Fallback(product)
    ensures !IsKey(lowered) ==> r.recommendation == FallbackHeadline(product)
    ensures |r.countries| == 3 && Descending(r.countries)
    ensures |r.chartData| == |r.countries|
    ensures forall i :: 0 <= i < |r.chartData| ==>
      && r.chartData[i].country == r.countries[i].name
      && r.chartData[i].volume == (r.countries[i].volume / Million) as real
  {
    match Table(lowered)
    case Some(entry) => WithChart(entry)
    case None => WithChart(Fallback(product))
  }

  /** A key of the table is answered the same whatever the product's spelling. */
  lemma KeyedResponseIgnoresSpelling(product: string, other: string, lowered: string)
    requires IsKey(lowered)
    ensures DummyResponse(product, lowered) == DummyResponse(other, lowered)
    ensures DummyResponse(product, lowered).chartData == Chart(Table(lowered).value.countries)
  {
  }

  // ---------------------------------------------------------------------
  // The lookup as written: a property read on a plain object literal
  // ---------------------------------------------------------------------

  /** The names every plain object inherits from Object.prototype. */
  const InheritedNames: seq<string> := [
    "constructor", "__proto__", "hasOwnProperty", "isPrototypeOf",
    "propertyIsEnumerable", "toLocaleString", "toString", "valueOf",
    "__defineGetter__", "__defineSetter__", "__lookupGetter__", "__lookupSetter__"]

  predicate IsInherited(key: string) {
    key in InheritedNames
  }

  /** What `responses[key]` reads: an own entry, an inherited member, or nothing. */
  datatype Property = Own(entry: Recommendation) | Inherited | Absent

  function Read(key: string): (p: Property)
    ensures p.Own? <==> IsKey(key)
    ensures p.Inherited? <==> IsInherited(key)
  {
    match Table(key)
    case Some(entry) => Own(entry)
    case None => if IsInherited(key) then Inherited else Absent
  }

  /**
   * The `message` of the error thrown when `.map` is read on `undefined`,
   * in V8's wording; other engines word it differently, so the text stands
   * for an engine-specific message.
   */
  const MapOfUndefined: string := "Cannot read properties of undefined (reading 'map')"

  /**
   * The lookup as the code performs it. An inherited member is truthy, so
   * the fallback is not taken, and reading `countries.map` on it throws.
   */
  function DummyResponseAsWritten(product: string, lowered: string): (r: Result<Recommendation>)
    ensures r.Failure? <==> IsInherited(lowered)
    ensures r.Success? ==> r.value == DummyResponse(product, lowered)
  {
    match Read(lowered)
    case Own(entry) => Success(WithChart(entry))
    case Absent => Success(WithChart(Fallback(product)))
    case Inherited => Failure(MapOfUndefined)
  }

  /** A product typed as "Constructor" makes the lookup throw instead of falling back. */
  lemma ConstructorThrows(product: string)
    ensures DummyResponseAsWritten(product, InheritedNames[0]).Failure?
    ensures DummyResponse(product, InheritedNames[0]).recommendation == FallbackHeadline(product)
  {
  }
}
