/**
 * The featured-listings hook (src/hooks/useFeaturedListings.ts): loads up
 * to six available listings, gives each a favorite flag and a default image
 * when it has none, falls back to six fixed sample listings when the table
 * yields nothing, and sets a listing's favorite flag from what the
 * favorites store says. Queries are selections over the `listings` table,
 * a parameter; the favorites store's answers are parameters too.
 */
module FeaturedListings {
  import opened Common
  import opened Listings

  const DefaultImage := "https://images.unsplash.com/photo-1560448204-e02f11c3d0e2?w=800&h=600&fit=crop"
  /** The query's `.limit(6)`. */
  const FeaturedLimit := 6

  /** The query: `.eq('is_available', true).limit(6)` — the first six available rows, in table order. */
  function AvailableListings(table: seq<ListingRow>): (r: seq<ListingRow>)
    ensures |r| == if |OnlyAvailable(table)| < FeaturedLimit then |OnlyAvailable(table)| else FeaturedLimit
    ensures r <= OnlyAvailable(table)
    ensures forall i :: 0 <= i < |r| ==> r[i].isAvailable == Some(true)
  {
    Take(OnlyAvailable(table), FeaturedLimit)
  }

  /** `.eq('is_available', true)`: the available rows, and only them, in table order. */
  function OnlyAvailable(table: seq<ListingRow>): (r: seq<ListingRow>)
    ensures forall row :: row in r <==> row in table && row.isAvailable == Some(true)
    ensures forall i :: 0 <= i < |r| ==> r[i].isAvailable == Some(true)
  {
    if table == [] then []
    else (if table[0].isAvailable == Some(true) then [table[0]] else []) + OnlyAvailable(table[1..])
  }

  /** A sample listing: one image, every optional column filled, not favorited. */
  function Sample(id: string, title: string, location: string, price: int, image: string, kind: string,
                  guests: int, bedrooms: int, bathrooms: int, amenities: seq<string>, instant: bool): Property
  {
    Property(id, title, location, price, Some([image]), Some(kind), Some(guests), Some(bedrooms),
             Some(bathrooms), Some(amenities), Some(instant), false)
  }

  /** The six sample listings shown when the table yields none (ratings and review counts are not carried). */
  function SampleProperties(): (r: seq<Property>)
    ensures |r| == 6
    ensures forall i :: 0 <= i < |r| ==> !r[i].isFavorited && r[i].images.Some? && |r[i].images.value| == 1
    ensures forall i, j :: 0 <= i < j < |r| ==> r[i].id != r[j].id
  {
    [ Sample("sample-1", "Modern Downtown Apartment", "New York, NY", 150,
             "https://images.unsplash.com/photo-1560448204-e02f11c3d0e2?w=800&h=600&fit=crop",
             "apartment", 4, 2, 1, ["WiFi", "Kitchen", "Parking"], true),
      Sample("sample-2", "Cozy Beach House", "San Diego, CA", 200,
             "https://images.unsplash.com/photo-1506744038136-46273834b3fb?w=800&h=600&fit=crop",
             "house", 6, 3, 2, ["WiFi", "Kitchen", "Beach Access"], false),
      Sample("sample-3", "Mountain Cabin Retreat", "Aspen, CO", 180,
             "https://images.unsplash.com/photo-1472396961693-142e6e269027?w=800&h=600&fit=crop",
             "cabin", 8, 4, 3, ["WiFi", "Fireplace", "Hot Tub"], true),
      Sample("sample-4", "Urban Loft Studio", "Chicago, IL", 120,
             "https://images.unsplash.com/photo-1460925895917-afdab827c52f?w=800&h=600&fit=crop",
             "loft", 2, 1, 1, ["WiFi", "Kitchen", "Gym"], true),
      Sample("sample-5", "Lakefront Villa", "Lake Tahoe, CA", 300,
             "https://images.unsplash.com/photo-1581091226825-a6a2a5aee158?w=800&h=600&fit=crop",
             "villa", 10, 5, 4, ["WiFi", "Kitchen", "Boat Dock", "Hot Tub"], false),
      Sample("sample-6", "Historic Townhouse", "Boston, MA", 175,
             "https://images.unsplash.com/photo-1488590528505-98d2b5aba04b?w=800&h=600&fit=crop",
             "townhouse", 6, 3, 2, ["WiFi", "Kitchen", "Garden"], true) ]
  }

  /** A loaded row as a card: every column kept, not favorited, and the default image when it has no image. */
  function WithDefaults(row: ListingRow): (p: Property)
    ensures p == PropertyOfRow(row, false).(images := p.images)
    ensures row.images.Some? && row.images.value != [] ==> p.images == row.images
    ensures row.images.None? || row.images.value == [] ==> p.images == Some([DefaultImage])
  {
    PropertyOfRow(row, false).(images := if row.images.Some? && |row.images.value| > 0 then row.images
                                         else Some([DefaultImage]))
  }

  /** Every card ends up with at least one image, and the transform is the identity on what it already filled. */
  lemma WithDefaultsHasImage(row: ListingRow)
    ensures WithDefaults(row).images.Some? && |WithDefaults(row).images.value| >= 1
  {
  }

  function TransformRows(rows: seq<ListingRow>): (r: seq<Property>)
    ensures |r| == |rows|
    ensures forall i :: 0 <= i < |rows| ==> r[i] == WithDefaults(rows[i])
  {
    if rows == [] then [] else [WithDefaults(rows[0])] + TransformRows(rows[1..])
  }

  /** What the list becomes for the rows the query returned: the samples when there are none, else one card per row. */
  function LoadedProperties(rows: seq<ListingRow>): (r: seq<Property>)
    ensures |r| >= 1
    ensures rows != [] ==> |r| == |rows|
    ensures forall i :: 0 <= i < |r| ==> !r[i].isFavorited && r[i].images.Some?
  {
    if |rows| == 0 then SampleProperties() else TransformRows(rows)
  }

  /**
   * No rows give exactly the samples; otherwise the count is kept and each
   * card is its row with the defaults, none of them favorited.
   */
  lemma LoadedPropertiesCases(rows: seq<ListingRow>)
    ensures rows == [] ==> LoadedProperties(rows) == SampleProperties()
    ensures rows != [] ==> |LoadedProperties(rows)| == |rows|
    ensures rows != [] ==> forall i :: 0 <= i < |rows| ==>
      LoadedProperties(rows)[i].id == rows[i].id && !LoadedProperties(rows)[i].isFavorited
    ensures forall i :: 0 <= i < |LoadedProperties(rows)| ==> LoadedProperties(rows)[i].images.Some?
  {
  }

  /**
   * Setting the flag of one id from the store's answer: the other cards
   * keep theirs, whatever they were. Setting it again is the same.
   */
  lemma SetFavoriteOnlyThatId(ps: seq<Property>, id: string, flag: bool)
    ensures |SetFavorite(ps, id, flag)| == |ps|
    ensures forall i :: 0 <= i < |ps| && ps[i].id == id ==> SetFavorite(ps, id, flag)[i].isFavorited == flag
    ensures forall i :: 0 <= i < |ps| && ps[i].id != id ==> SetFavorite(ps, id, flag)[i] == ps[i]
    ensures SetFavorite(SetFavorite(ps, id, flag), id, flag) == SetFavorite(ps, id, flag)
  {
    SetFavoriteLaws(ps, id, flag);
  }

  /**
   * The table yields no available listing exactly when it has no available
   * row; the hook then shows the samples, and otherwise one card per
   * available row, at most six.
   */
  lemma SamplesIffNoAvailableRow(table: seq<ListingRow>)
    ensures AvailableListings(table) == [] <==> forall row :: row in table ==> row.isAvailable != Some(true)
    ensures (forall row :: row in table ==> row.isAvailable != Some(true)) ==>
      LoadedProperties(AvailableListings(table)) == SampleProperties()
    ensures (exists row :: row in table && row.isAvailable == Some(true)) ==>
      LoadedProperties(AvailableListings(table)) == TransformRows(AvailableListings(table))
      && 1 <= |LoadedProperties(AvailableListings(table))| <= FeaturedLimit
  {
    var avail := OnlyAvailable(table);
    var r := AvailableListings(table);
    if exists row :: row in table && row.isAvailable == Some(true) {
      var row :| row in table && row.isAvailable == Some(true);
      assert row in avail;
      assert |r| >= 1;
      assert LoadedProperties(r) == TransformRows(r);
    } else {
      assert forall row :: row !in avail;
      assert avail == [];
      assert r == [];
    }
  }

  /**
   * The flag comes from the store, not from the card: every card with the
   * id gets the store's `!existing`, whatever its own flag was. On a card
   * whose flag already says `!existing` the toggle changes nothing, where
   * negating the local flag would have flipped it.
   */
  lemma StoreDecidesNotLocalFlag(ps: seq<Property>, id: string, existing: bool)
    ensures forall i :: 0 <= i < |ps| && ps[i].id == id ==>
      SetFavorite(ps, id, !existing)[i].isFavorited == !existing
    ensures forall i :: 0 <= i < |ps| && ps[i].id == id && ps[i].isFavorited == !existing ==>
      SetFavorite(ps, id, !existing)[i] == ps[i] && NegateFavorite(ps, id)[i].isFavorited == existing
  {
  }

  class FeaturedListingsHook {
    var properties: seq<Property>
    var loading: bool

    constructor ()
      ensures properties == [] && loading
    {
      properties, loading := [], true;
    }

    /** `fetchFeaturedListings()` over the table; a failing query keeps the list and only ends loading. */
    method FetchFeaturedListings(table: seq<ListingRow>, fails: bool)
      modifies this
      ensures !loading
      ensures fails ==> properties == old(properties)
      ensures !fails ==> properties == LoadedProperties(AvailableListings(table))
    {
      if fails {
        loading := false;
        return;
      }
      var data := AvailableListings(table);
      if |data| == 0 {
        properties := SampleProperties();
      } else {
        properties := TransformRows(data);
      }
      loading := false;
    }

    /**
     * `handleToggleFavorite(id)` for `user`, where `existing` is whether the
     * store already holds the favorite and `thrown` whether a call threw.
     * Without a user nothing happens; otherwise the favorite is removed or
     * added and the card's flag set to match, unless a call threw.
     */
    method HandleToggleFavorite(user: Option<string>, id: string, existing: bool, thrown: bool)
      returns (change: Option<FavoriteChange>)
      modifies this`properties
      ensures user.None? ==> change.None? && properties == old(properties)
      ensures user.Some? ==> change == Some(if existing then RemoveFavorite(user.value, id)
                                            else AddFavorite(user.value, id))
      ensures user.Some? && thrown ==> properties == old(properties)
      ensures user.Some? && !thrown ==> properties == SetFavorite(old(properties), id, !existing)
    {
      if user.None? {
        return None;
      }
      if existing {
        change := Some(RemoveFavorite(user.value, id));
        if !thrown {
          properties := SetFavorite(properties, id, false);
        }
      } else {
        change := Some(AddFavorite(user.value, id));
        if !thrown {
          properties := SetFavorite(properties, id, true);
        }
      }
    }
  }
}
