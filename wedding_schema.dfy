// The wedding setup form's field rules (features/wedding/schemas.ts): minimum lengths on
// the names, the venue and the date, counted on the untrimmed input.

module WeddingSchema {
  import opened Types

  /** The raw form values; `pricePerPerson` is the text of the price field. */
  datatype SetupInput = SetupInput(
    brideName: string,
    groomName: string,
    venueName: string,
    venueAddress: string,
    venueHall: string,
    date: string,
    pricePerPerson: string)

  datatype SetupField = BrideName | GroomName | VenueName | VenueAddress | VenueHall | Date

  /** The smallest length each field accepts. */
  function MinLength(f: SetupField): nat
  {
    match f
    case BrideName => 2
    case GroomName => 2
    case VenueName => 2
    case VenueAddress => 5
    case VenueHall => 2
    case Date => 1
  }

  function FieldText(x: SetupInput, f: SetupField): string
  {
    match f
    case BrideName => x.brideName
    case GroomName => x.groomName
    case VenueName => x.venueName
    case VenueAddress => x.venueAddress
    case VenueHall => x.venueHall
    case Date => x.date
  }

  /** The message shown under a field that is too short. */
  function Message(f: SetupField): string
  {
    match f
    case BrideName => "Ime mlade mora imati bar 2 karaktera"
    case GroomName => "Ime mladoženje mora imati bar 2 karaktera"
    case VenueName => "Naziv lokacije mora imati bar 2 karaktera"
    case VenueAddress => "Adresa mora imati bar 5 karaktera"
    case VenueHall => "Naziv sale mora imati bar 2 karaktera"
    case Date => "Datum je obavezan"
  }

  /** `weddingSetupSchema`'s failures: every field shorter than its minimum, each reported. */
  function SetupErrors(x: SetupInput): (errs: set<SetupField>)
    ensures forall f :: f in errs <==> |FieldText(x, f)| < MinLength(f)
  {
    set f: SetupField | f in {BrideName, GroomName, VenueName, VenueAddress, VenueHall, Date}
                        && |FieldText(x, f)| < MinLength(f)
  }

  /** The parsed values; the price stays text here, its conversion to a number is left out. */
  datatype SetupValues = SetupValues(brideName: string, groomName: string, venue: Venue, date: string, pricePerPerson: string)

  /** Parsing succeeds exactly when no field is too short, and carries every field through. */
  function Validate(x: SetupInput): (r: Option<SetupValues>)
    ensures r.Some? <==> SetupErrors(x) == {}
    ensures r.Some? ==> r.value == SetupValues(x.brideName, x.groomName,
                                               Venue(x.venueName, x.venueAddress, x.venueHall), x.date, x.pricePerPerson)
  {
    var errs := SetupErrors(x);
    if |x.brideName| >= 2 && |x.groomName| >= 2 && |x.venueName| >= 2 && |x.venueAddress| >= 5
       && |x.venueHall| >= 2 && |x.date| >= 1
    then
      assert errs == {};
      Some(SetupValues(x.brideName, x.groomName, Venue(x.venueName, x.venueAddress, x.venueHall), x.date, x.pricePerPerson))
    else
      assert errs != {} by {
        if |x.brideName| < 2 { assert BrideName in errs; }
        else if |x.groomName| < 2 { assert GroomName in errs; }
        else if |x.venueName| < 2 { assert VenueName in errs; }
        else if |x.venueAddress| < 5 { assert VenueAddress in errs; }
        else if |x.venueHall| < 2 { assert VenueHall in errs; }
        else { assert Date in errs; }
      }
      None
  }

  /** Lengths are not trimmed: names of blanks pass. */
  lemma BlankNamesAccepted(price: string)
    ensures Validate(SetupInput("  ", "  ", "  ", "     ", "  ", " ", price)).Some?
  {
    var x := SetupInput("  ", "  ", "  ", "     ", "  ", " ", price);
    assert forall f :: |FieldText(x, f)| >= MinLength(f);
  }

  /** An all-empty input fails on every field. */
  lemma EmptyFormFailsEverywhere()
    ensures SetupErrors(SetupInput("", "", "", "", "", "", "")) == {BrideName, GroomName, VenueName, VenueAddress, VenueHall, Date}
  {
  }
}
