/**
 * Listing records and the per-id favorite updates the pages apply to their
 * lists of properties (src/hooks/useFeaturedListings.ts,
 * src/pages/SearchResults.tsx).
 */
module Listings {
  import opened Common

  /**
   * A row of the `listings` table as the backend returns it (the shape of
   * `listings.Row` in src/integrations/supabase/types.ts); nullable columns
   * are Options. Coordinates and timestamps are not carried.
   */
  datatype ListingRow = ListingRow(
    id: string,
    hostId: string,
    title: string,
    location: string,
    pricePerNight: int,
    cleaningFee: Option<int>,
    maxGuests: Option<int>,
    bedrooms: Option<int>,
    bathrooms: Option<int>,
    propertyType: Option<string>,
    amenities: Option<seq<string>>,
    images: Option<seq<string>>,
    instantBook: Option<bool>,
    isAvailable: Option<bool>,
    description: Option<string>,
    houseRules: Option<string>)

  /**
   * A property as the cards show it (the `Property` interface of the hooks
   * and pages): the listing columns it names, typed as the table types them,
   * and the `is_favorited` flag. An absent flag reads as false wherever it
   * is used, so it is a plain bool here.
   */
  datatype Property = Property(
    id: string,
    title: string,
    location: string,
    pricePerNight: int,
    images: Option<seq<string>>,
    propertyType: Option<string>,
    maxGuests: Option<int>,
    bedrooms: Option<int>,
    bathrooms: Option<int>,
    amenities: Option<seq<string>>,
    instantBook: Option<bool>,
    isFavorited: bool)

  /** A change to the `favorites` table. */
  datatype FavoriteChange = RemoveFavorite(userId: string, listingId: string)
                          | AddFavorite(userId: string, listingId: string)

  /** The columns of a row that a property carries. */
  function PropertyOfRow(row: ListingRow, isFavorited: bool): (p: Property)
    ensures p.id == row.id && p.title == row.title && p.location == row.location
    ensures p.pricePerNight == row.pricePerNight && p.images == row.images
    ensures p.propertyType == row.propertyType && p.maxGuests == row.maxGuests
    ensures p.bedrooms == row.bedrooms && p.bathrooms == row.bathrooms
    ensures p.amenities == row.amenities && p.instantBook == row.instantBook
    ensures p.isFavorited == isFavorited
  {
    Property(row.id, row.title, row.location, row.pricePerNight, row.images, row.propertyType,
             row.maxGuests, row.bedrooms, row.bathrooms, row.amenities, row.instantBook, isFavorited)
  }

  /**
   * `prev.map(p => p.id === id ? { ...p, is_favorited: flag } : p)`:
   * the properties with that id get the flag, every other one is kept.
   */
  function SetFavorite(ps: seq<Property>, id: string, flag: bool): (r: seq<Property>)
    ensures |r| == |ps|
    ensures forall i :: 0 <= i < |ps| ==>
      r[i] == if ps[i].id == id then ps[i].(isFavorited := flag) else ps[i]
  {
    if ps == [] then []
    else [if ps[0].id == id then ps[0].(isFavorited := flag) else ps[0]] + SetFavorite(ps[1..], id, flag)
  }

  /**
   * `prev.map(p => p.id === id ? { ...p, is_favorited: !p.is_favorited } : p)`:
   * the properties with that id have their flag negated, every other one is kept.
   */
  function NegateFavorite(ps: seq<Property>, id: string): (r: seq<Property>)
    ensures |r| == |ps|
    ensures forall i :: 0 <= i < |ps| ==>
      r[i] == if ps[i].id == id then ps[i].(isFavorited := !ps[i].isFavorited) else ps[i]
  {
    if ps == [] then []
    else [if ps[0].id == id then ps[0].(isFavorited := !ps[0].isFavorited) else ps[0]]
         + NegateFavorite(ps[1..], id)
  }

  /** Setting the same flag twice is setting it once; an id nobody has changes nothing. */
  lemma SetFavoriteLaws(ps: seq<Property>, id: string, flag: bool)
    ensures SetFavorite(SetFavorite(ps, id, flag), id, flag) == SetFavorite(ps, id, flag)
    ensures (forall i :: 0 <= i < |ps| ==> ps[i].id != id) ==> SetFavorite(ps, id, flag) == ps
  {
  }

  /** Negating twice restores the list. */
  lemma NegateFavoriteTwice(ps: seq<Property>, id: string)
    ensures NegateFavorite(NegateFavorite(ps, id), id) == ps
  {
  }
}
