/**
 * The host's "Add New Listing" dialog (src/components/host/AddListingModal.tsx):
 * a form record of text fields, an amenity list edited through one checkbox
 * per offered amenity, and a submit handler that closes the dialog and
 * resets the form. Saving the listing is not implemented by the dialog.
 */
module AddListing {
  import opened Common

  /** The amenities offered as checkboxes. */
  const AmenityOptions: seq<string> := ["WiFi", "Kitchen", "Parking", "Pool", "Hot Tub", "Air Conditioning",
                                        "Heating", "Washer", "Dryer", "TV", "Workspace", "Gym"]

  /** The form record; the numeric fields hold the text typed into them. */
  datatype ListingForm = ListingForm(
    title: string,
    description: string,
    location: string,
    pricePerNight: string,
    cleaningFee: string,
    maxGuests: string,
    bedrooms: string,
    bathrooms: string,
    amenities: seq<string>,
    houseRules: string,
    images: seq<string>)

  const EmptyForm := ListingForm("", "", "", "", "", "", "", "", [], "", [])

  /**
   * `handleAmenityChange(amenity, checked)`: checking appends the amenity
   * (even one already listed), unchecking removes every occurrence; every
   * other field is kept.
   */
  function AmenityChange(f: ListingForm, amenity: string, checked: bool): (r: ListingForm)
    ensures r.(amenities := f.amenities) == f
    ensures checked ==> r.amenities == f.amenities + [amenity]
    ensures !checked ==> amenity !in r.amenities
    ensures !checked ==> forall a :: a != amenity ==> (a in r.amenities <==> a in f.amenities)
  {
    if checked then f.(amenities := f.amenities + [amenity])
    else f.(amenities := RemoveAll(f.amenities, amenity))
  }

  /** Checking an amenity twice lists it twice: the handler itself does not prevent duplicates. */
  lemma CheckingTwiceDuplicates(f: ListingForm, amenity: string)
    ensures var r := AmenityChange(AmenityChange(f, amenity, true), amenity, true).amenities;
      r == f.amenities + [amenity, amenity] && !NoDuplicates(r)
  {
    var r := AmenityChange(AmenityChange(f, amenity, true), amenity, true).amenities;
    assert r[|f.amenities|] == r[|f.amenities| + 1];
  }

  /**
   * Through the checkboxes, whose checked state is whether the list holds
   * the amenity, a click is a toggle; so the list the dialog builds never
   * holds an amenity twice.
   */
  lemma CheckboxClickIsToggle(f: ListingForm, amenity: string, checked: bool)
    requires checked == (amenity !in f.amenities)
    ensures AmenityChange(f, amenity, checked).amenities == Toggle(f.amenities, amenity)
    ensures NoDuplicates(f.amenities) ==> NoDuplicates(AmenityChange(f, amenity, checked).amenities)
  {
    if NoDuplicates(f.amenities) {
      ToggleNoDuplicates(f.amenities, amenity);
    }
  }

  /** Unchecking an amenity that was checked once on a list without it gives the list back. */
  lemma CheckThenUncheck(f: ListingForm, amenity: string)
    requires amenity !in f.amenities
    ensures AmenityChange(AmenityChange(f, amenity, true), amenity, false) == f
  {
    RemoveAllAppend(f.amenities, [amenity], amenity);
    RemoveAllAbsent(f.amenities, amenity);
    assert RemoveAll([amenity], amenity) == [];
  }

  class ListingDialog {
    var open: bool
    var formData: ListingForm

    constructor (open: bool)
      ensures this.open == open && formData == EmptyForm
    {
      this.open := open;
      formData := EmptyForm;
    }

    /** A text field's `onChange`, shown here for the title; the other text fields work alike. */
    method SetTitle(s: string)
      modifies this`formData
      ensures formData == old(formData).(title := s)
    {
      formData := formData.(title := s);
    }

    method HandleAmenityChange(amenity: string, checked: bool)
      modifies this`formData
      ensures formData == AmenityChange(old(formData), amenity, checked)
    {
      if checked {
        formData := formData.(amenities := formData.amenities + [amenity]);
      } else {
        formData := formData.(amenities := RemoveAll(formData.amenities, amenity));
      }
    }

    /** `handleSubmit(e)`: close the dialog and clear every field. */
    method HandleSubmit()
      modifies this
      ensures !open && formData == EmptyForm
    {
      open := false;
      formData := EmptyForm;
    }
  }
}
