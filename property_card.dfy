/**
 * The property card (src/components/shared/PropertyCard.tsx): the title is
 * shortened to 60 characters, at most three amenities are shown with an
 * overflow count, each amenity's icon is picked from its lower-cased name,
 * and the compare button reflects whether the property is in the
 * comparison list.
 */
module PropertyCard {
  import opened Common

  const TitleLimit := 60
  const ShownAmenities := 3

  /** `truncateText(text, maxLength)`: the text when it fits, else its first `maxLength` characters and '...'. */
  function TruncateText(text: string, maxLength: nat): (r: string)
    ensures |text| <= maxLength ==> r == text
    ensures |text| > maxLength ==> r == text[..maxLength] + "..." && |r| == maxLength + 3
    ensures r[..if |text| <= maxLength then |text| else maxLength] <= text
  {
    if |text| > maxLength then text[..maxLength] + "..." else text
  }

  /** The card's title line. */
  function CardTitle(title: string): string {
    TruncateText(title, TitleLimit)
  }

  /**
   * A shortened title is at most 63 characters and begins with the first 60
   * of the original; shortening it again changes nothing, since a shortened
   * title keeps its first 60 characters and ends in the same "...".
   */
  lemma CardTitleBounds(title: string)
    ensures |CardTitle(title)| <= TitleLimit + 3
    ensures StartsWith(CardTitle(title), if |title| <= TitleLimit then title else title[..TitleLimit])
    ensures CardTitle(CardTitle(title)) == CardTitle(title)
  {
    var t := CardTitle(title);
    if |title| > TitleLimit {
      assert t[..TitleLimit] == title[..TitleLimit];
      assert |t| == TitleLimit + 3;
    }
  }

  /** The amenities shown and the overflow count: `slice(0, 3)` and `+{length - 3}` when there are more than three. */
  datatype AmenityRow = AmenityRow(shown: seq<string>, overflow: Option<int>)

  function AmenityPreview(amenities: seq<string>): (r: AmenityRow)
    ensures |r.shown| == if |amenities| <= ShownAmenities then |amenities| else ShownAmenities
    ensures r.shown <= amenities
    ensures r.overflow.Some? <==> |amenities| > ShownAmenities
    ensures r.overflow.Some? ==> r.overflow.value >= 1 && |r.shown| + r.overflow.value == |amenities|
  {
    AmenityRow(Take(amenities, ShownAmenities),
               if |amenities| > ShownAmenities then Some(|amenities| - ShownAmenities) else None)
  }

  /** The icons an amenity can get. */
  datatype Icon = WifiIcon | CarIcon | CoffeeIcon

  /** `getAmenityIcon(amenity)`: a switch on the lower-cased name; anything unrecognised gets the wifi icon. */
  function AmenityIcon(amenity: string): (i: Icon)
    ensures i == CarIcon <==> ToLower(amenity) == "parking"
    ensures i == CoffeeIcon <==> ToLower(amenity) == "kitchen"
    ensures i == WifiIcon <==> ToLower(amenity) != "parking" && ToLower(amenity) != "kitchen"
  {
    var key := ToLower(amenity);
    if key == "wifi" then WifiIcon
    else if key == "parking" then CarIcon
    else if key == "kitchen" then CoffeeIcon
    else WifiIcon
  }

  /** The lookup ignores case: a name and its lower-cased form get the same icon. */
  lemma AmenityIconIgnoresCase(amenity: string)
    ensures AmenityIcon(ToLower(amenity)) == AmenityIcon(amenity)
  {
    ToLowerIdempotent(amenity);
  }

  /** The names as they are written in the listings map to their icons. */
  lemma AmenityIconOfListedNames()
    ensures AmenityIcon("WiFi") == WifiIcon
    ensures AmenityIcon("Parking") == CarIcon
    ensures AmenityIcon("Kitchen") == CoffeeIcon
    ensures AmenityIcon("Pool") == WifiIcon
  {
    assert ToLower("WiFi") == "wifi";
    assert ToLower("Parking") == "parking";
    assert ToLower("Kitchen") == "kitchen";
    assert ToLower("Pool") == "pool";
  }

  /** The compare button: whether it is disabled, and its caption. */
  datatype CompareButton = CompareButton(disabled: bool, caption: string)

  /**
   * The compare button, present only when the card is asked to show it and
   * has a handler; it is disabled and reads 'Added' exactly when the
   * property is in the comparison list, and reads 'Compare' otherwise.
   */
  function CompareButtonFor(showCompareButton: bool, hasHandler: bool, comparisonList: seq<string>, id: string)
    : (b: Option<CompareButton>)
    ensures b.Some? <==> showCompareButton && hasHandler
    ensures b.Some? ==> (b.value.disabled <==> id in comparisonList)
    ensures b.Some? ==> (b.value.caption == "Added" <==> id in comparisonList)
    ensures b.Some? ==> (b.value.caption == "Compare" <==> id !in comparisonList)
  {
    if !(showCompareButton && hasHandler) then None
    else if id in comparisonList then Some(CompareButton(true, "Added"))
    else Some(CompareButton(false, "Compare"))
  }

  /** With the default empty comparison list, a shown button is enabled and reads 'Compare'. */
  lemma DefaultListButtonEnabled(id: string)
    ensures CompareButtonFor(true, true, [], id) == Some(CompareButton(false, "Compare"))
    ensures CompareButtonFor(false, true, [], id).None?
  {
  }
}
