/**
 * The ABDM facility finder script: the mock facility table, the filter on
 * facility types and the fixed-width cards printed for the first five
 * facilities that pass it.
 *
 * Console output is modelled as the text of the card cells and of the title
 * line; the banner lines, the emoji lines and the distance cell are not.
 */
module AbdmHospitalFinder {
  import opened Text
  import opened Sequences

  /** One row of `MOCK_FACILITIES`. */
  datatype Facility = Facility(
    id: string,
    name: string,
    facilityType: string,
    address: string,
    city: string,
    state: string,
    pincode: string,
    contact: string,
    distance: real,
    latitude: real,
    longitude: real)

  /** `MOCK_FACILITIES`: ten facilities around Mumbai, nearest first. */
  const MockFacilities: seq<Facility> := [
    Facility("HFR-MH-001", "Lilavati Hospital and Research Centre", "Hospital", "A-791, Bandra Reclamation, Bandra West", "Mumbai", "Maharashtra", "400050", "+91-22-2675-1000", 0.8, 19.0509, 72.8294),
    Facility("HFR-MH-002", "Kokilaben Dhirubhai Ambani Hospital", "Hospital", "Rao Saheb Achutrao Patwardhan Marg, Four Bungalows, Andheri West", "Mumbai", "Maharashtra", "400053", "+91-22-3066-6666", 1.2, 19.1306, 72.8260),
    Facility("HFR-MH-003", "Hinduja Hospital Blood Bank", "Blood Bank", "Veer Savarkar Marg, Mahim", "Mumbai", "Maharashtra", "400016", "+91-22-2445-1515", 1.5, 19.0368, 72.8406),
    Facility("HFR-MH-004", "Jaslok Hospital and Research Centre", "Hospital", "15, Dr. G. Deshmukh Marg, Pedder Road", "Mumbai", "Maharashtra", "400026", "+91-22-6657-3333", 2.1, 18.9714, 72.8079),
    Facility("HFR-MH-005", "Breach Candy Hospital", "Hospital", "60-A, Bhulabhai Desai Road", "Mumbai", "Maharashtra", "400026", "+91-22-2366-7788", 2.4, 18.9706, 72.8051),
    Facility("HFR-MH-006", "Tata Memorial Blood Bank", "Blood Bank", "Dr. E Borges Road, Parel", "Mumbai", "Maharashtra", "400012", "+91-22-2417-7000", 2.8, 19.0048, 72.8426),
    Facility("HFR-MH-007", "Apollo Clinic Bandra", "Clinic", "Turner Road, Bandra West", "Mumbai", "Maharashtra", "400050", "+91-22-2640-5500", 3.0, 19.0544, 72.8328),
    Facility("HFR-MH-008", "Nanavati Super Speciality Hospital", "Hospital", "S.V. Road, Vile Parle West", "Mumbai", "Maharashtra", "400056", "+91-22-2626-7500", 3.5, 19.0989, 72.8438),
    Facility("HFR-MH-009", "Saifee Hospital Blood Bank", "Blood Bank", "15/17, Maharshi Karve Marg, Charni Road", "Mumbai", "Maharashtra", "400004", "+91-22-6757-0111", 4.2, 18.9545, 72.8176),
    Facility("HFR-MH-010", "Wockhardt Hospitals", "Hospital", "1877, Dr. Anand Rao Nair Marg, Mumbai Central", "Mumbai", "Maharashtra", "400011", "+91-22-6178-4444", 4.8, 18.9696, 72.8193)
  ]

  // ---------------------------------------------------------------------------
  // filterFacilities

  /** `ALLOWED_TYPES`. */
  const AllowedTypes: seq<string> := ["hospital", "blood bank", "clinic"]

  /** `ALLOWED_TYPES.some(type => facilityType.toLowerCase().includes(type))`. */
  predicate AllowedType(facilityType: string) {
    exists t :: t in AllowedTypes && Contains(Lower(facilityType), t)
  }

  function IsAllowed(f: Facility): bool {
    AllowedType(f.facilityType)
  }

  /**
   * `filterFacilities`: a facility is kept exactly when its lower-cased type
   * contains one of the allowed types; the kept facilities keep their order.
   */
  function FilterFacilities(facilities: seq<Facility>): (r: seq<Facility>)
    ensures forall f :: f in r <==> f in facilities && AllowedType(f.facilityType)
    ensures forall f :: f in facilities ==>
              multiset(r)[f] == if AllowedType(f.facilityType) then multiset(facilities)[f] else 0
    ensures IsSubsequence(r, facilities)
    ensures |r| <= |facilities|
  {
    var kept := Filter(facilities, IsAllowed);
    forall f ensures f in kept <==> f in facilities && AllowedType(f.facilityType) {
      FilterMembership(facilities, IsAllowed, f);
    }
    forall f | f in facilities
      ensures multiset(kept)[f] == if AllowedType(f.facilityType) then multiset(facilities)[f] else 0
    {
      FilterCount(facilities, IsAllowed, f);
    }
    FilterIsSubsequence(facilities, IsAllowed);
    kept
  }

  /** Filtering an already filtered list changes nothing. */
  lemma FilterFacilitiesIdempotent(facilities: seq<Facility>)
    ensures FilterFacilities(FilterFacilities(facilities)) == FilterFacilities(facilities)
  {
    FilterIdempotent(facilities, IsAllowed);
  }

  /** The type test ignores ASCII case. */
  lemma UpperCaseTypeAllowed()
    ensures AllowedType("HOSPITAL")
  {
    AllowedByPrefix("HOSPITAL", "hospital");
  }

  /** A type merely containing an allowed word, anywhere, passes. */
  lemma ContainedTypeAllowed()
    ensures AllowedType("Multi-Specialty Hospital")
  {
    var m := Lower("Multi-Specialty Hospital");
    assert OccursAt(m, "hospital", 16);
    assert "hospital" in AllowedTypes;
    ContainsIffOccurs(m, "hospital");
  }

  /** A type containing none of the allowed words is rejected. */
  lemma PharmacyNotAllowed()
    ensures !AllowedType("Pharmacy")
  {
    var p := Lower("Pharmacy");
    NotContainedByFirstChar(p, "hospital");
    NotContainedByFirstChar(p, "blood bank");
    NotContainedByFirstChar(p, "clinic");
  }

  // ---------------------------------------------------------------------------
  // displayResults

  /** The cells of one printed card; the distance is kept as a number. */
  datatype Card = Card(
    title: string,
    facilityType: string,
    address: string,
    city: string,
    distance: real,
    contact: string)

  /** What `displayResults` prints: the "No facilities" line, or the total and up to five cards. */
  datatype Display = NoFacilities | Cards(total: nat, cards: seq<Card>)

  /** `(i + 1 + '. ' + name).substring(0, 56).padEnd(57)`. */
  function TitleCell(i: nat, name: string): (r: string)
    ensures |r| == 57
    ensures var heading := NatToString(i + 1) + ". " + name;
            var shown := if |heading| <= 56 then heading else heading[..56];
            r[..|shown|] == shown && forall k :: |shown| <= k < 57 ==> r[k] == ' '
  {
    PadEnd(Prefix(NatToString(i + 1) + ". " + name, 56), 57)
  }

  /** `address.substring(0, 44).padEnd(44)`: always exactly 44 characters. */
  function AddressCell(address: string): (r: string)
    ensures |r| == 44
    ensures |address| >= 44 ==> r == address[..44]
    ensures |address| < 44 ==> r == address + Spaces(44 - |address|)
  {
    PadEnd(Prefix(address, 44), 44)
  }

  /** The card printed for the `i`-th facility shown (numbered from 0). */
  function CardOf(i: nat, f: Facility): Card {
    Card(TitleCell(i, f.name), PadEnd(f.facilityType, 47), AddressCell(f.address),
         PadEnd(f.city, 48), f.distance, PadEnd(f.contact, 45))
  }

  /** `facilities.slice(0, 5)`. */
  function Top5(facilities: seq<Facility>): (r: seq<Facility>)
    ensures |r| <= 5 && (|facilities| <= 5 ==> r == facilities)
    ensures |facilities| >= 5 ==> |r| == 5
    ensures r == facilities[..|r|]
  {
    if |facilities| <= 5 then facilities else facilities[..5]
  }

  /**
   * `displayResults`: nothing but the "No facilities" line for an empty list;
   * otherwise the total and one card for each of the first five facilities,
   * in order, numbered from 1.
   */
  function DisplayResults(facilities: seq<Facility>): (r: Display)
    ensures r.NoFacilities? <==> facilities == []
    ensures r.Cards? ==> r.total == |facilities| && |r.cards| == |Top5(facilities)|
    ensures r.Cards? ==> forall i :: 0 <= i < |r.cards| ==> r.cards[i] == CardOf(i, facilities[i])
  {
    if |facilities| == 0 then NoFacilities
    else
      var top := Top5(facilities);
      Cards(|facilities|, seq(|top|, i requires 0 <= i < |top| => CardOf(i, top[i])))
  }

  /** Each card's title starts with its number from 1 and `". "`, then as much of the name as fits. */
  lemma CardTitlesNumbered(facilities: seq<Facility>, i: nat)
    requires DisplayResults(facilities).Cards? && i < |DisplayResults(facilities).cards|
    ensures var title := DisplayResults(facilities).cards[i].title;
            IsPrefix(NatToString(i + 1) + ". ", title) &&
            (|facilities[i].name| <= 53 ==> IsPrefix(NatToString(i + 1) + ". " + facilities[i].name, title))
  {
    assert i < 5;
    assert NatToString(i + 1) == [DigitChar(i + 1)];
    var heading := NatToString(i + 1) + ". " + facilities[i].name;
    var title := DisplayResults(facilities).cards[i].title;
    assert title[..|Prefix(heading, 56)|] == Prefix(heading, 56);
    assert Prefix(heading, 56)[..3] == heading[..3];
    assert heading[..3] == NatToString(i + 1) + ". ";
  }

  /** The box-drawing border `┌──…──┐` above each card, 58 dashes wide. */
  function Border(left: char, right: char): (r: string)
    ensures |r| == 60
  {
    [left] + seq(58, _ => '─') + [right]
  }

  /** The title line `│ <title>│`. */
  function TitleLine(c: Card): string {
    "│ " + c.title + "│"
  }

  /** The title line is exactly as wide as the border around the card. */
  lemma TitleLineFitsBorder(i: nat, f: Facility)
    ensures |TitleLine(CardOf(i, f))| == |Border('┌', '┐')| == 60
  {
  }

  // ---------------------------------------------------------------------------
  // main

  /** `main`: every mock facility passes the filter, so ten are found and five shown. */
  lemma MainShowsFirstFive()
    ensures FilterFacilities(MockFacilities) == MockFacilities
    ensures var d := DisplayResults(FilterFacilities(MockFacilities));
            d.Cards? && d.total == 10 && |d.cards| == 5 &&
            forall i :: 0 <= i < 5 ==> d.cards[i] == CardOf(i, MockFacilities[i])
  {
    AllTypesAllowed();
    FilterAll(MockFacilities, IsAllowed);
    var kept := FilterFacilities(MockFacilities);
    assert kept == MockFacilities;
    assert |kept| == 10;
    assert |Top5(kept)| == 5;
  }

  /** A type whose lower-cased form starts with an allowed word passes. */
  lemma AllowedByPrefix(facilityType: string, t: string)
    requires t in AllowedTypes && IsPrefix(t, Lower(facilityType))
    ensures AllowedType(facilityType)
  {
  }

  /** The three type names used in the mock table each pass the filter. */
  lemma TableTypeAllowed(facilityType: string)
    requires facilityType in ["Hospital", "Blood Bank", "Clinic"]
    ensures AllowedType(facilityType)
  {
    if facilityType == "Hospital" {
      AllowedByPrefix(facilityType, "hospital");
    } else if facilityType == "Blood Bank" {
      AllowedByPrefix(facilityType, "blood bank");
    } else {
      AllowedByPrefix(facilityType, "clinic");
    }
  }

  /** Every facility of the mock table passes the filter. */
  lemma AllTypesAllowed()
    ensures forall i :: 0 <= i < |MockFacilities| ==> IsAllowed(MockFacilities[i])
  {
    forall i | 0 <= i < |MockFacilities|
      ensures IsAllowed(MockFacilities[i])
    {
      var t := MockFacilities[i].facilityType;
      if i in {0, 1, 3, 4, 7, 9} {
        assert t == "Hospital";
        TableTypeAllowed(t);
      } else if i in {2, 5, 8} {
        assert t == "Blood Bank";
        TableTypeAllowed(t);
      } else {
        assert t == "Clinic";
        TableTypeAllowed(t);
      }
    }
  }

}
