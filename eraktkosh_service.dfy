/**
 * The client's mock eRaktKosh service: `fetchNearbyBloodStock` looks the
 * blood group up exactly (an unknown group gives no banks) and jitters each
 * bank's distance and stock; `fetchNearbyFacilities` keeps the facilities
 * within the radius and jitters their distances.
 *
 * The delays are not modelled. `Math.random()` is a stream of draws in
 * [0, 1) passed as a parameter; the draws are consumed in evaluation order.
 */
module EraktkoshService {
  import opened Wrappers
  import opened Text
  import opened Sequences
  import Routes = EraktkoshRoutes

  /** One row of the client's `MOCK_BLOOD_BANKS` (no coordinates, unlike the backend's). */
  datatype BloodBank = BloodBank(
    id: nat,
    hospitalName: string,
    distance: real,
    address: string,
    contact: string,
    component: string,
    stock: string,
    city: string,
    state: string)

  // ---------------------------------------------------------------------------
  // Mock tables

  /** The O+ banks. */
  const OPosBanks: seq<BloodBank> := [
    BloodBank(1, "Tata Memorial Hospital Blood Bank", 2.3, "Dr. E Borges Road, Parel, Mumbai - 400012", "022-24177000", "Whole Blood", Units(45), "Mumbai", "Maharashtra"),
    BloodBank(2, "KEM Hospital Blood Bank", 3.1, "Acharya Donde Marg, Parel, Mumbai - 400012", "022-24136051", "Whole Blood", Units(32), "Mumbai", "Maharashtra"),
    BloodBank(3, "JJ Hospital Blood Bank", 4.5, "J.J. Marg, Nagpada, Mumbai - 400008", "022-23739600", "Packed RBC", Units(28), "Mumbai", "Maharashtra"),
    BloodBank(4, "Lilavati Hospital Blood Bank", 5.2, "A-791, Bandra Reclamation, Mumbai - 400050", "022-26751000", "Whole Blood", Units(52), "Mumbai", "Maharashtra")
  ]

  /** The A+ banks. */
  const APosBanks: seq<BloodBank> := [
    BloodBank(1, "AIIMS Blood Bank", 1.8, "Sri Aurobindo Marg, Ansari Nagar, New Delhi - 110029", "011-26588500", "Whole Blood", Units(67), "New Delhi", "Delhi"),
    BloodBank(2, "Safdarjung Hospital Blood Bank", 2.5, "Ring Road, Safdarjung Enclave, New Delhi - 110029", "011-26730000", "Packed RBC", Units(38), "New Delhi", "Delhi"),
    BloodBank(3, "Apollo Hospital Blood Bank", 4.2, "Sarita Vihar, Mathura Road, New Delhi - 110076", "011-29871000", "Whole Blood", Units(54), "New Delhi", "Delhi")
  ]

  /** The B+ banks. */
  const BPosBanks: seq<BloodBank> := [
    BloodBank(1, "CMC Vellore Blood Bank", 0.8, "Ida Scudder Road, Vellore - 632004", "0416-2281000", "Whole Blood", Units(89), "Vellore", "Tamil Nadu"),
    BloodBank(2, "Apollo Hospitals Blood Bank", 3.4, "Greams Lane, Chennai - 600006", "044-28293333", "Packed RBC", Units(56), "Chennai", "Tamil Nadu")
  ]

  /** The AB+ banks. */
  const ABPosBanks: seq<BloodBank> := [
    BloodBank(1, "Manipal Hospital Blood Bank", 2.1, "98, HAL Old Airport Road, Bangalore - 560017", "080-25024444", "Whole Blood", Units(24), "Bangalore", "Karnataka"),
    BloodBank(2, "Narayana Hrudayalaya", 5.3, "258/A, Bommasandra, Bangalore - 560099", "080-71222222", "Platelets", Units(15), "Bangalore", "Karnataka")
  ]

  /** The O- banks. */
  const ONegBanks: seq<BloodBank> := [
    BloodBank(1, "Ruby Hall Clinic Blood Bank", 1.5, "40, Sassoon Road, Pune - 411001", "020-66455000", "Whole Blood", Units(12), "Pune", "Maharashtra"),
    BloodBank(2, "Jehangir Hospital Blood Bank", 3.2, "32, Sassoon Road, Pune - 411001", "020-66815555", "Packed RBC", Units(8), "Pune", "Maharashtra")
  ]

  /** The A- banks. */
  const ANegBanks: seq<BloodBank> := [
    BloodBank(1, "PGI Chandigarh Blood Bank", 1.2, "Sector 12, Chandigarh - 160012", "0172-2747585", "Whole Blood", Units(18), "Chandigarh", "Chandigarh"),
    BloodBank(2, "Max Hospital Blood Bank", 4.5, "Phase 6, Mohali - 160055", "0172-6652000", "FFP", Units(11), "Mohali", "Punjab")
  ]

  /** The B- banks. */
  const BNegBanks: seq<BloodBank> := [
    BloodBank(1, "KGMU Blood Bank", 2.4, "Shah Mina Road, Lucknow - 226003", "0522-2258181", "Whole Blood", Units(9), "Lucknow", "Uttar Pradesh")
  ]

  /** The AB- banks. */
  const ABNegBanks: seq<BloodBank> := [
    BloodBank(1, "NIMHANS Blood Bank", 3.6, "Hosur Road, Bangalore - 560029", "080-26995000", "Whole Blood", Units(5), "Bangalore", "Karnataka")
  ]
  /** `MOCK_BLOOD_BANKS`: the banks listed for each blood group. */
  const MockBloodBanks: map<string, seq<BloodBank>> := map[
    "O+" := OPosBanks,
    "A+" := APosBanks,
    "B+" := BPosBanks,
    "AB+" := ABPosBanks,
    "O-" := ONegBanks,
    "A-" := ANegBanks,
    "B-" := BNegBanks,
    "AB-" := ABNegBanks
  ]

  /** `MOCK_FACILITIES`: the same eight facilities as the backend's table. */
  const MockFacilities: seq<Routes.Facility> := Routes.MockFacilities

  /** The stock labels of `banks` are `"<counts[i]> Units"`, one count per bank. */
  predicate StockCounts(banks: seq<BloodBank>, counts: seq<nat>) {
    |banks| == |counts| && forall i :: 0 <= i < |banks| ==> banks[i].stock == Units(counts[i])
  }

  /** Every stock label of `banks` holds a count that `parseInt` reads. */
  predicate StocksParse(banks: seq<BloodBank>) {
    forall i :: 0 <= i < |banks| ==> ParseInt(banks[i].stock).Some? && ParseInt(banks[i].stock).value >= 0
  }

  lemma CountsParse(banks: seq<BloodBank>, counts: seq<nat>)
    requires StockCounts(banks, counts)
    ensures StocksParse(banks)
    ensures forall i :: 0 <= i < |banks| ==> ParseInt(banks[i].stock) == Some(counts[i])
  {
    forall i | 0 <= i < |banks|
      ensures ParseInt(banks[i].stock) == Some(counts[i])
    {
      ParseIntOfUnits(counts[i]);
    }
  }

  /** The stock labels of the O+ and O- banks parse. */
  lemma OGroupStocksParse()
    ensures StocksParse(OPosBanks) && StocksParse(ONegBanks)
  {
    assert StockCounts(OPosBanks, [45, 32, 28, 52]);
    CountsParse(OPosBanks, [45, 32, 28, 52]);
    assert StockCounts(ONegBanks, [12, 8]);
    CountsParse(ONegBanks, [12, 8]);
  }

  /** The stock labels of the A+ and A- banks parse. */
  lemma AGroupStocksParse()
    ensures StocksParse(APosBanks) && StocksParse(ANegBanks)
  {
    assert StockCounts(APosBanks, [67, 38, 54]);
    CountsParse(APosBanks, [67, 38, 54]);
    assert StockCounts(ANegBanks, [18, 11]);
    CountsParse(ANegBanks, [18, 11]);
  }

  /** The stock labels of the B+ and B- banks parse. */
  lemma BGroupStocksParse()
    ensures StocksParse(BPosBanks) && StocksParse(BNegBanks)
  {
    assert StockCounts(BPosBanks, [89, 56]);
    CountsParse(BPosBanks, [89, 56]);
    assert StockCounts(BNegBanks, [9]);
    CountsParse(BNegBanks, [9]);
  }

  /** The stock labels of the AB+ and AB- banks parse. */
  lemma ABGroupStocksParse()
    ensures StocksParse(ABPosBanks) && StocksParse(ABNegBanks)
  {
    assert StockCounts(ABPosBanks, [24, 15]);
    CountsParse(ABPosBanks, [24, 15]);
    assert StockCounts(ABNegBanks, [5]);
    CountsParse(ABNegBanks, [5]);
  }

  /** Every stock label in `MOCK_BLOOD_BANKS` holds a count that `parseInt` reads. */
  lemma TableStocksParse()
    ensures forall g :: g in MockBloodBanks ==> StocksParse(MockBloodBanks[g])
  {
    OGroupStocksParse();
    AGroupStocksParse();
    BGroupStocksParse();
    ABGroupStocksParse();
  }



  // ---------------------------------------------------------------------------
  // Distance jitter

  /** `Math.max(0.5, distance + noise)`: never below half a kilometre. */
  function JitterDistance(distance: real, noise: real): (r: real)
    ensures r >= 0.5
    ensures r >= distance + noise
    ensures r == 0.5 || r == distance + noise
  {
    if distance + noise < 0.5 then 0.5 else distance + noise
  }

  /** `Math.random() * 2 - 1`, in [-1, 1). */
  function BankNoise(u: Routes.Draw): (r: real)
    ensures -1.0 <= r < 1.0
  {
    u * 2.0 - 1.0
  }

  /** `Math.random() * 1 - 0.5`, in [-0.5, 0.5). */
  function FacilityNoise(u: Routes.Draw): (r: real)
    ensures -0.5 <= r < 0.5
  {
    u * 1.0 - 0.5
  }

  // ---------------------------------------------------------------------------
  // fetchNearbyBloodStock

  /** `MOCK_BLOOD_BANKS[bloodGroup] || []`: an exact lookup, with no fallback group. */
  function BanksOf(bloodGroup: string): (r: seq<BloodBank>)
    ensures bloodGroup !in MockBloodBanks ==> r == []
    ensures bloodGroup in MockBloodBanks ==> r == MockBloodBanks[bloodGroup] && r != []
  {
    if bloodGroup in MockBloodBanks then MockBloodBanks[bloodGroup] else []
  }

  /** `banks.map(...)`: each bank with its distance jittered by draw `2i` and its stock by draw `2i + 1`. */
  function JitterBanks(banks: seq<BloodBank>, random: Routes.Randoms): (r: seq<BloodBank>)
    ensures |r| == |banks|
    ensures forall i :: 0 <= i < |r| ==>
              r[i] == banks[i].(distance := r[i].distance, stock := r[i].stock) &&
              r[i].distance == JitterDistance(banks[i].distance, BankNoise(random(2 * i))) &&
              r[i].stock == Routes.JitterStock(banks[i].stock, random(2 * i + 1))
  {
    seq(|banks|, i requires 0 <= i < |banks| =>
          banks[i].(distance := JitterDistance(banks[i].distance, BankNoise(random(2 * i))),
                    stock := Routes.JitterStock(banks[i].stock, random(2 * i + 1))))
  }

  /**
   * The banks of `bloodGroup`, in table order, with every field kept but
   * `distance` (jittered with draw `2i`) and `stock` (jittered with draw
   * `2i + 1`, as the backend route does). `latitude` and `longitude` are unused.
   */
  function FetchNearbyBloodStock(latitude: real, longitude: real, bloodGroup: string, random: Routes.Randoms): (r: seq<BloodBank>)
    ensures |r| == |BanksOf(bloodGroup)|
    ensures forall i :: 0 <= i < |r| ==>
              var b := BanksOf(bloodGroup)[i];
              r[i] == b.(distance := r[i].distance, stock := r[i].stock) &&
              r[i].distance == JitterDistance(b.distance, BankNoise(random(2 * i))) &&
              r[i].stock == Routes.JitterStock(b.stock, random(2 * i + 1))
  {
    JitterBanks(BanksOf(bloodGroup), random)
  }

  /** Unlike the backend route, an unknown group gives an empty list. */
  lemma UnknownGroupGivesNothing(latitude: real, longitude: real, bloodGroup: string, random: Routes.Randoms)
    requires bloodGroup !in MockBloodBanks
    ensures FetchNearbyBloodStock(latitude, longitude, bloodGroup, random) == []
  {
  }

  /** The lookup is exact: a lower-case or padded group is unknown. */
  lemma LookupIsExact(latitude: real, longitude: real, random: Routes.Randoms)
    ensures FetchNearbyBloodStock(latitude, longitude, "o+", random) == []
    ensures FetchNearbyBloodStock(latitude, longitude, " O+", random) == []
    ensures |FetchNearbyBloodStock(latitude, longitude, "O+", random)| == 4
  {
    assert "o+" !in MockBloodBanks;
    assert " O+" !in MockBloodBanks;
  }

  /**
   * Each returned bank's stock is `"<k> Units"` with `k >= 1`, at most four
   * above and at least five below the table count; its distance is at least 0.5.
   */
  lemma FetchedStockBounds(latitude: real, longitude: real, bloodGroup: string, random: Routes.Randoms, i: nat)
    requires i < |FetchNearbyBloodStock(latitude, longitude, bloodGroup, random)|
    ensures var base := ParseInt(BanksOf(bloodGroup)[i].stock);
            var out := FetchNearbyBloodStock(latitude, longitude, bloodGroup, random)[i];
            base.Some? && ParseInt(out.stock).Some? &&
            var k := ParseInt(out.stock).value;
            out.stock == Units(k) && 1 <= k <= base.value + 4 && base.value - 5 <= k &&
            out.distance >= 0.5
  {
    TableStocksParse();
  }

  // ---------------------------------------------------------------------------
  // fetchNearbyFacilities

  /** The `radius = 10` default. */
  function RadiusOrDefault(radius: Option<real>): real {
    radius.GetOr(10.0)
  }

  function Within(radius: real): Routes.Facility -> bool {
    (f: Routes.Facility) => f.distance <= radius
  }

  /** `MOCK_FACILITIES.filter(facility => facility.distance <= radius)`. */
  function InRadius(radius: Option<real>): (r: seq<Routes.Facility>)
    ensures forall f :: f in r <==> f in MockFacilities && f.distance <= RadiusOrDefault(radius)
    ensures IsSubsequence(r, MockFacilities)
  {
    var kept := Filter(MockFacilities, Within(RadiusOrDefault(radius)));
    forall f ensures f in kept <==> f in MockFacilities && f.distance <= RadiusOrDefault(radius) {
      FilterMembership(MockFacilities, Within(RadiusOrDefault(radius)), f);
    }
    FilterIsSubsequence(MockFacilities, Within(RadiusOrDefault(radius)));
    kept
  }

  /**
   * The facilities within the radius, in table order, each with every field
   * but `distance` kept and the distance jittered with draw `i`.
   */
  function FetchNearbyFacilities(latitude: real, longitude: real, radius: Option<real>, random: Routes.Randoms): (r: seq<Routes.Facility>)
    ensures |r| == |InRadius(radius)|
    ensures forall i :: 0 <= i < |r| ==>
              var f := InRadius(radius)[i];
              r[i] == f.(distance := r[i].distance) &&
              r[i].distance == JitterDistance(f.distance, FacilityNoise(random(i))) &&
              r[i].distance >= 0.5
  {
    var kept := InRadius(radius);
    seq(|kept|, i requires 0 <= i < |kept| =>
          kept[i].(distance := JitterDistance(kept[i].distance, FacilityNoise(random(i)))))
  }

  /** With the default radius of 10 km every facility (the farthest is 6.8 km) is returned. */
  lemma DefaultRadiusKeepsAll(latitude: real, longitude: real, random: Routes.Randoms)
    ensures InRadius(None) == MockFacilities
    ensures |FetchNearbyFacilities(latitude, longitude, None, random)| == 8
  {
    assert forall i :: 0 <= i < |MockFacilities| ==> MockFacilities[i].distance <= 10.0;
    assert InRadius(None) == MockFacilities by {
      FilterAll(MockFacilities, Within(10.0));
    }
  }

}
