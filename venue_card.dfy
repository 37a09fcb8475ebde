/**
 * The venue card of the client: the price tier, the tag lists and review data decoded from the
 * row's JSON columns (with their fallbacks), the sentiment badge, the signature-dish fallback,
 * the border styling and the click rule.
 */
module VenueCard {
  import opened Wrappers

  /** The provider's price levels, cheapest first. */
  const PriceLevels: seq<string> :=
    ["PRICE_LEVEL_INEXPENSIVE", "PRICE_LEVEL_MODERATE", "PRICE_LEVEL_EXPENSIVE", "PRICE_LEVEL_VERY_EXPENSIVE"]

  /** `getPriceLevelDisplay`: one `$` per tier for a known level, nothing for any other value. */
  function PriceLevelDisplay(level: Option<string>): (r: string)
    ensures forall j :: 0 <= j < |r| ==> r[j] == '$'
    ensures r == "" <==> level.None? || level.value !in PriceLevels
    ensures forall i :: 0 <= i < |PriceLevels| ==> (level == Some(PriceLevels[i]) <==> |r| == i + 1)
  {
    if level == Some("PRICE_LEVEL_INEXPENSIVE") then "$"
    else if level == Some("PRICE_LEVEL_MODERATE") then "$$"
    else if level == Some("PRICE_LEVEL_EXPENSIVE") then "$$$"
    else if level == Some("PRICE_LEVEL_VERY_EXPENSIVE") then "$$$$"
    else ""
  }

  /** Two levels that show the same non-empty tier are the same level. */
  lemma PriceLevelDisplayInjective(a: Option<string>, b: Option<string>)
    requires PriceLevelDisplay(a) == PriceLevelDisplay(b) != ""
    ensures a == b
  {
    var i := |PriceLevelDisplay(a)| - 1;
    assert 0 <= i < |PriceLevels|;
    assert a == Some(PriceLevels[i]) && b == Some(PriceLevels[i]);
  }

  /** Truthiness of a nullable string: present and non-empty. */
  predicate Truthy(s: Option<string>) {
    s.Some? && s.value != ""
  }

  /**
   * `parseJSON(json, fallback)`: the decoded value, or `fallback` for a null or empty column and
   * for text `parse` rejects (`None` is `JSON.parse` throwing).
   */
  function ParseJSON<T>(json: Option<string>, fallback: T, parse: string -> Option<T>): (r: T)
    ensures !Truthy(json) ==> r == fallback
    ensures Truthy(json) && parse(json.value).None? ==> r == fallback
    ensures Truthy(json) && parse(json.value).Some? ==> r == parse(json.value).value
  {
    if !Truthy(json) then fallback
    else
      match parse(json.value)
      case None => fallback
      case Some(v) => v
  }

  /** `parseTags`: the decoded list, or the empty list for a null or empty column or unparsable text. */
  function ParseTags(json: Option<string>, parse: string -> Option<seq<string>>): (r: seq<string>)
    ensures !Truthy(json) ==> r == []
    ensures Truthy(json) && parse(json.value).None? ==> r == []
    ensures Truthy(json) && parse(json.value).Some? ==> r == parse(json.value).value
  {
    if !Truthy(json) then []
    else
      match parse(json.value)
      case None => []
      case Some(tags) => tags
  }

  /** The tag parser is the general parser with the empty list as fallback. */
  lemma ParseTagsIsParseJSON(json: Option<string>, parse: string -> Option<seq<string>>)
    ensures ParseTags(json, parse) == ParseJSON(json, [], parse)
  {
  }

  /** The three badge classes. */
  datatype Badge = Loved | Mixed | SomeConcerns {
    function Text(): string {
      match this
      case Loved => "😊 Loved by diners"
      case Mixed => "😐 Mixed reviews"
      case SomeConcerns => "😕 Some concerns"
    }
    function Classes(): string {
      match this
      case Loved => "bg-mint/20 text-mint"
      case Mixed => "bg-yellow-500/20 text-yellow-600"
      case SomeConcerns => "bg-red-500/20 text-red-600"
    }
    /** Higher is better received. */
    function Rank(): nat {
      match this
      case Loved => 2
      case Mixed => 1
      case SomeConcerns => 0
    }
  }

  /**
   * The sentiment badge for the `positive` share, `None` when the share is missing (so the
   * comparison with 0 is false) or not above 0.
   */
  function SentimentBadge(score: Option<real>): (b: Option<Badge>)
    ensures b.None? <==> score.None? || score.value <= 0.0
    ensures b == Some(Loved) <==> score.Some? && score.value > 0.6
    ensures b == Some(Mixed) <==> score.Some? && 0.4 < score.value <= 0.6
    ensures b == Some(SomeConcerns) <==> score.Some? && 0.0 < score.value <= 0.4
  {
    if score.None? || !(score.value > 0.0) then None
    else if score.value > 0.6 then Some(Loved)
    else if score.value > 0.4 then Some(Mixed)
    else Some(SomeConcerns)
  }

  /** A higher positive share never gets a worse badge. */
  lemma SentimentBadgeMonotone(s: real, t: real)
    requires 0.0 < s <= t
    ensures SentimentBadge(Some(s)).Some? && SentimentBadge(Some(t)).Some?
    ensures SentimentBadge(Some(s)).value.Rank() <= SentimentBadge(Some(t)).value.Rank()
  {
  }

  /** The sentiment object shown when the column is null, empty or unparsable. */
  function NeutralSentiment(): map<string, real> {
    map["positive" := 0.0, "neutral" := 0.0, "negative" := 0.0]
  }

  /** `reviewSentiment.positive`. */
  function PositiveShare(sentiment: map<string, real>): (r: Option<real>)
    ensures r.Some? <==> "positive" in sentiment
    ensures r.Some? ==> r.value == sentiment["positive"]
  {
    if "positive" in sentiment then Some(sentiment["positive"]) else None
  }

  /** A null, empty or unparsable sentiment column shows no badge. */
  lemma MissingSentimentNoBadge(json: Option<string>, parse: string -> Option<map<string, real>>)
    requires !Truthy(json) || parse(json.value).None?
    ensures SentimentBadge(PositiveShare(ParseJSON(json, NeutralSentiment(), parse))).None?
  {
    assert ParseJSON(json, NeutralSentiment(), parse) == NeutralSentiment();
    assert PositiveShare(NeutralSentiment()) == Some(0.0);
  }

  /** "Likely known for": the signature dish, only for a truthy dish and no standout dishes. */
  function SignatureDishShown(standoutDishes: seq<string>, signatureDish: Option<string>): (r: Option<string>)
    ensures r.Some? <==> standoutDishes == [] && Truthy(signatureDish)
    ensures r.Some? ==> r == signatureDish
  {
    if |standoutDishes| == 0 && Truthy(signatureDish) then signatureDish else None
  }

  /** The card's click handler: `onSelect(venue.id)` unless the card is disabled. */
  function OnClick(disabled: bool, venueId: string): (r: Option<string>)
    ensures r.Some? <==> !disabled
    ensures r.Some? ==> r.value == venueId
  {
    if !disabled then Some(venueId) else None
  }

  const WinnerClasses: string := "border-saffron bg-saffron/10 ring-2 ring-saffron/30"
  const SelectedClasses: string := "border-mint bg-mint/10 ring-2 ring-mint/30"
  const PlainClasses: string := "border-border bg-card hover:border-border hover:bg-card-hover"

  /** The three conditional pieces of the card's class list, in order; an unmet one is empty. */
  function BorderPieces(isSelected: bool, isWinner: bool): seq<string> {
    [if isWinner then WinnerClasses else "",
     if isSelected && !isWinner then SelectedClasses else "",
     if !isSelected && !isWinner then PlainClasses else ""]
  }

  /** The intended styling: a winner is styled as the winner whether or not it is selected. */
  datatype Border = WinnerBorder | SelectedBorder | PlainBorder {
    function Classes(): string {
      match this
      case WinnerBorder => WinnerClasses
      case SelectedBorder => SelectedClasses
      case PlainBorder => PlainClasses
    }
  }

  function BorderFor(isSelected: bool, isWinner: bool): Border {
    if isWinner then WinnerBorder else if isSelected then SelectedBorder else PlainBorder
  }

  /** Exactly one piece of the class list is non-empty, and it is the intended styling's. */
  lemma BorderExactlyOne(isSelected: bool, isWinner: bool)
    ensures var pieces := BorderPieces(isSelected, isWinner);
      exists k :: 0 <= k < 3 && pieces[k] == BorderFor(isSelected, isWinner).Classes()
                 && forall j :: 0 <= j < 3 && j != k ==> pieces[j] == ""
  {
    var pieces := BorderPieces(isSelected, isWinner);
    var k := if isWinner then 0 else if isSelected then 1 else 2;
    assert pieces[k] == BorderFor(isSelected, isWinner).Classes();
    assert forall j :: 0 <= j < 3 && j != k ==> pieces[j] == "";
  }

  /** The fields of a venue as the client receives them; JSON columns arrive as text. */
  datatype VenueData = VenueData(
    id: string, name: string, address: Option<string>, priceLevel: Option<string>,
    googleMapsUri: Option<string>, description: Option<string>,
    cuisineTags: Option<string>, vibeTags: Option<string>, bestFor: Option<string>,
    signatureDish: Option<string>, reviewSentiment: Option<string>, standoutDishes: Option<string>,
    reviewSummary: Option<string>, reviewHighlights: Option<string>)

  /** `JSON.parse` for the two shapes the card decodes. */
  datatype Parsers = Parsers(list: string -> Option<seq<string>>, sentiment: string -> Option<map<string, real>>)

  /** What the card shows; a list section is shown when its list is non-empty. */
  datatype CardView = CardView(
    winnerRibbon: bool, border: string, price: Option<string>, badge: Option<Badge>,
    description: Option<string>, reviewSummary: Option<string>, standoutDishes: seq<string>,
    signatureDish: Option<string>, cuisineTags: seq<string>, vibeTags: seq<string>,
    highlights: seq<string>, bestFor: seq<string>, address: Option<string>, mapsLink: Option<string>)

  /** `{field && …}`: a nullable text section shows, as given, exactly when the field is truthy. */
  function Shown(field: Option<string>): (r: Option<string>)
    ensures r.Some? <==> Truthy(field)
    ensures r.Some? ==> r == field
  {
    if Truthy(field) then field else None
  }

  function Card(venue: VenueData, isSelected: bool, isWinner: bool, p: Parsers): (c: CardView)
    ensures c.winnerRibbon <==> isWinner
    ensures c.border == BorderFor(isSelected, isWinner).Classes()
    ensures c.price.Some? <==> PriceLevelDisplay(venue.priceLevel) != ""
    ensures c.price.Some? ==> c.price.value == PriceLevelDisplay(venue.priceLevel)
    ensures c.badge == SentimentBadge(PositiveShare(ParseJSON(venue.reviewSentiment, NeutralSentiment(), p.sentiment)))
    ensures !Truthy(venue.reviewSentiment) ==> c.badge.None?
    ensures c.standoutDishes == ParseJSON(venue.standoutDishes, [], p.list)
    ensures c.signatureDish.Some? <==> c.standoutDishes == [] && Truthy(venue.signatureDish)
    ensures c.signatureDish.Some? ==> c.signatureDish == venue.signatureDish
    ensures c.cuisineTags == ParseTags(venue.cuisineTags, p.list)
    ensures c.vibeTags == ParseTags(venue.vibeTags, p.list)
    ensures c.bestFor == ParseTags(venue.bestFor, p.list)
    ensures c.highlights == ParseJSON(venue.reviewHighlights, [], p.list)
    ensures c.description.Some? <==> Truthy(venue.description)
    ensures c.description.Some? ==> c.description == venue.description
    ensures c.reviewSummary.Some? <==> Truthy(venue.reviewSummary)
    ensures c.reviewSummary.Some? ==> c.reviewSummary == venue.reviewSummary
    ensures c.address.Some? <==> Truthy(venue.address)
    ensures c.address.Some? ==> c.address == venue.address
    ensures c.mapsLink.Some? <==> Truthy(venue.googleMapsUri)
    ensures c.mapsLink.Some? ==> c.mapsLink == venue.googleMapsUri
  {
    var priceDisplay := PriceLevelDisplay(venue.priceLevel);
    var sentiment := ParseJSON(venue.reviewSentiment, NeutralSentiment(), p.sentiment);
    var dishes := ParseJSON(venue.standoutDishes, [], p.list);
    CardView(
      winnerRibbon := isWinner,
      border := BorderFor(isSelected, isWinner).Classes(),
      price := if priceDisplay != "" then Some(priceDisplay) else None,
      badge := SentimentBadge(PositiveShare(sentiment)),
      description := Shown(venue.description),
      reviewSummary := Shown(venue.reviewSummary),
      standoutDishes := dishes,
      signatureDish := SignatureDishShown(dishes, venue.signatureDish),
      cuisineTags := ParseTags(venue.cuisineTags, p.list),
      vibeTags := ParseTags(venue.vibeTags, p.list),
      highlights := ParseJSON(venue.reviewHighlights, [], p.list),
      bestFor := ParseTags(venue.bestFor, p.list),
      address := Shown(venue.address),
      mapsLink := Shown(venue.googleMapsUri))
  }
}
