/**
 * The mock eRaktKosh routes of the backend: `/nearby-blood-stock` normalises
 * the requested blood group, falls back to the O+ list for an unknown group
 * and jitters each bank's stock; `/nearby-facilities` returns the whole
 * facility table.
 *
 * The 500 ms delay is not modelled. `Math.random()` is a stream of draws in
 * [0, 1), one per bank, passed as a parameter.
 */
module EraktkoshRoutes {
  import opened Wrappers
  import opened Text

  /** One row of `MOCK_BLOOD_BANKS`. */
  datatype BloodBank = BloodBank(
    id: nat,
    hospitalName: string,
    distance: real,
    address: string,
    contact: string,
    component: string,
    stock: string,
    city: string,
    state: string,
    latitude: real,
    longitude: real)

  /** One row of `MOCK_FACILITIES`. */
  datatype Facility = Facility(
    id: nat,
    facilityId: string,
    name: string,
    address: string,
    city: string,
    state: string,
    pincode: string,
    contact: string,
    email: string,
    latitude: real,
    longitude: real,
    distance: real,
    facilityType: string)

  /** The JSON body `{ success, count, data, source }` both routes send. */
  datatype Response<T> = Response(success: bool, count: nat, data: seq<T>, source: string)

  /** A value of `Math.random()`. */
  type Draw = u: real | 0.0 <= u < 1.0 witness 0.0

  /** The successive values `Math.random()` returns. */
  type Randoms = nat -> Draw

  // ---------------------------------------------------------------------------
  // Mock tables

  /** The O+ banks. */
  const OPosBanks: seq<BloodBank> := [
    BloodBank(1, "Tata Memorial Hospital Blood Bank", 2.3, "Dr. E Borges Road, Parel, Mumbai - 400012", "022-24177000", "Whole Blood", Units(45), "Mumbai", "Maharashtra", 19.0185, 72.8436),
    BloodBank(2, "KEM Hospital Blood Bank", 3.1, "Acharya Donde Marg, Parel, Mumbai - 400012", "022-24136051", "Whole Blood", Units(32), "Mumbai", "Maharashtra", 19.0028, 72.8399),
    BloodBank(3, "JJ Hospital Blood Bank", 4.5, "J.J. Marg, Nagpada, Mumbai - 400008", "022-23739600", "Packed RBC", Units(28), "Mumbai", "Maharashtra", 18.9616, 72.8329),
    BloodBank(4, "Lilavati Hospital Blood Bank", 5.2, "A-791, Bandra Reclamation, Mumbai - 400050", "022-26751000", "Whole Blood", Units(52), "Mumbai", "Maharashtra", 19.0511, 72.8258)
  ]

  /** The A+ banks. */
  const APosBanks: seq<BloodBank> := [
    BloodBank(1, "AIIMS Blood Bank", 1.8, "Sri Aurobindo Marg, Ansari Nagar, New Delhi - 110029", "011-26588500", "Whole Blood", Units(67), "New Delhi", "Delhi", 28.5670, 77.2100),
    BloodBank(2, "Safdarjung Hospital Blood Bank", 2.5, "Ring Road, Safdarjung Enclave, New Delhi - 110029", "011-26730000", "Packed RBC", Units(38), "New Delhi", "Delhi", 28.5684, 77.1906),
    BloodBank(3, "Apollo Hospital Blood Bank", 4.2, "Sarita Vihar, Mathura Road, New Delhi - 110076", "011-29871000", "Whole Blood", Units(54), "New Delhi", "Delhi", 28.5369, 77.2917)
  ]

  /** The B+ banks. */
  const BPosBanks: seq<BloodBank> := [
    BloodBank(1, "CMC Vellore Blood Bank", 0.8, "Ida Scudder Road, Vellore - 632004", "0416-2281000", "Whole Blood", Units(89), "Vellore", "Tamil Nadu", 12.9272, 79.1325),
    BloodBank(2, "Apollo Hospitals Blood Bank", 3.4, "Greams Lane, Chennai - 600006", "044-28293333", "Packed RBC", Units(56), "Chennai", "Tamil Nadu", 13.0645, 80.2520)
  ]

  /** The AB+ banks. */
  const ABPosBanks: seq<BloodBank> := [
    BloodBank(1, "Manipal Hospital Blood Bank", 2.1, "98, HAL Old Airport Road, Bangalore - 560017", "080-25024444", "Whole Blood", Units(24), "Bangalore", "Karnataka", 12.9602, 77.6433),
    BloodBank(2, "Narayana Hrudayalaya", 5.3, "258/A, Bommasandra, Bangalore - 560099", "080-71222222", "Platelets", Units(15), "Bangalore", "Karnataka", 12.8093, 77.6975)
  ]

  /** The O- banks. */
  const ONegBanks: seq<BloodBank> := [
    BloodBank(1, "Ruby Hall Clinic Blood Bank", 1.5, "40, Sassoon Road, Pune - 411001", "020-66455000", "Whole Blood", Units(12), "Pune", "Maharashtra", 18.5297, 73.8760),
    BloodBank(2, "Jehangir Hospital Blood Bank", 3.2, "32, Sassoon Road, Pune - 411001", "020-66815555", "Packed RBC", Units(8), "Pune", "Maharashtra", 18.5293, 73.8732)
  ]

  /** The A- banks. */
  const ANegBanks: seq<BloodBank> := [
    BloodBank(1, "PGI Chandigarh Blood Bank", 1.2, "Sector 12, Chandigarh - 160012", "0172-2747585", "Whole Blood", Units(18), "Chandigarh", "Chandigarh", 30.7634, 76.7796),
    BloodBank(2, "Max Hospital Blood Bank", 4.5, "Phase 6, Mohali - 160055", "0172-6652000", "FFP", Units(11), "Mohali", "Punjab", 30.7311, 76.7214)
  ]

  /** The B- banks. */
  const BNegBanks: seq<BloodBank> := [
    BloodBank(1, "KGMU Blood Bank", 2.4, "Shah Mina Road, Lucknow - 226003", "0522-2258181", "Whole Blood", Units(9), "Lucknow", "Uttar Pradesh", 26.8679, 80.9138)
  ]

  /** The AB- banks. */
  const ABNegBanks: seq<BloodBank> := [
    BloodBank(1, "NIMHANS Blood Bank", 3.6, "Hosur Road, Bangalore - 560029", "080-26995000", "Whole Blood", Units(5), "Bangalore", "Karnataka", 12.9365, 77.5956)
  ]

  /** `MOCK_BLOOD_BANKS`: the banks listed for each blood group. */
  const MockBloodBanks: map<string, seq<BloodBank>> := map[
    "O+" := OPosBanks,
    "A+" := APosBanks,
    "B+" := BPosBanks,
    "AB+" := ABPosBanks,
    "O-" := ONegBanks,
    "A-" := ANegBanks,
    "B-" := BNegBanks,
    "AB-" := ABNegBanks
  ]

  /** `MOCK_FACILITIES`. */
  const MockFacilities: seq<Facility> := [
    Facility(1, "FAC001", "Apollo Hospitals", "Greams Lane, Off Greams Road", "Chennai", "Tamil Nadu", "600006", "044-28293333", "info@apollohospitals.com", 13.0569, 80.2425, 2.5, "Multi-Specialty Hospital"),
    Facility(2, "FAC002", "Fortis Healthcare", "Sector 62, Phase VIII", "Mohali", "Punjab", "160062", "0172-5096000", "info@fortishealthcare.com", 30.7046, 76.7179, 1.8, "Multi-Specialty Hospital"),
    Facility(3, "FAC003", "Max Super Speciality Hospital", "Press Enclave Road", "Saket, New Delhi", "Delhi", "110017", "011-26515050", "info@maxhealthcare.com", 28.5244, 77.2067, 3.2, "Super Specialty Hospital"),
    Facility(4, "FAC004", "Manipal Hospital", "98, Rustom Bagh", "Bangalore", "Karnataka", "560017", "080-25024444", "info@manipalhospitals.com", 12.9698, 77.6489, 4.1, "Multi-Specialty Hospital"),
    Facility(5, "FAC005", "Medanta - The Medicity", "Sector 38", "Gurugram", "Haryana", "122001", "0124-4141414", "info@medanta.org", 28.4353, 77.0535, 5.5, "Multi-Specialty Hospital"),
    Facility(6, "FAC006", "Narayana Health", "258/A, Bommasandra Industrial Area", "Bangalore", "Karnataka", "560099", "080-71222222", "info@narayanahealth.org", 12.8050, 77.6869, 6.8, "Cardiac Care Hospital"),
    Facility(7, "FAC007", "Kokilaben Dhirubhai Ambani Hospital", "Four Bungalows, Andheri West", "Mumbai", "Maharashtra", "400053", "022-30999999", "info@kokilabenhospital.com", 19.1266, 72.8304, 3.7, "Multi-Specialty Hospital"),
    Facility(8, "FAC008", "Breach Candy Hospital", "60-A, Bhulabhai Desai Road", "Mumbai", "Maharashtra", "400026", "022-23667788", "info@breachcandyhospital.org", 18.9732, 72.8008, 2.9, "General Hospital")
  ]

  /** Every stock label of `banks` is `"<n> Units"`, so `parseInt` reads a count from it. */
  predicate StocksParse(banks: seq<BloodBank>) {
    forall i :: 0 <= i < |banks| ==> ParseInt(banks[i].stock).Some? && ParseInt(banks[i].stock).value >= 0
  }

  /** The stock labels of `banks` are `"<counts[i]> Units"`, one count per bank. */
  predicate StockCounts(banks: seq<BloodBank>, counts: seq<nat>) {
    |banks| == |counts| && forall i :: 0 <= i < |banks| ==> banks[i].stock == Units(counts[i])
  }

  /** `parseInt` reads back each bank's count. */
  lemma CountsParse(banks: seq<BloodBank>, counts: seq<nat>)
    requires StockCounts(banks, counts)
    ensures StocksParse(banks)
    ensures forall i :: 0 <= i < |banks| ==> ParseInt(banks[i].stock) == Some(counts[i])
  {
    forall i | 0 <= i < |banks|
      ensures ParseInt(banks[i].stock) == Some(counts[i])
    {
      ParseIntOfUnits(counts[i]);
    }
  }

  /** The stock labels of the O+ and O- banks parse. */
  lemma OGroupStocksParse()
    ensures StocksParse(OPosBanks) && StocksParse(ONegBanks)
  {
    assert StockCounts(OPosBanks, [45, 32, 28, 52]);
    CountsParse(OPosBanks, [45, 32, 28, 52]);
    assert StockCounts(ONegBanks, [12, 8]);
    CountsParse(ONegBanks, [12, 8]);
  }

  /** The stock labels of the A+ and A- banks parse. */
  lemma AGroupStocksParse()
    ensures StocksParse(APosBanks) && StocksParse(ANegBanks)
  {
    assert StockCounts(APosBanks, [67, 38, 54]);
    CountsParse(APosBanks, [67, 38, 54]);
    assert StockCounts(ANegBanks, [18, 11]);
    CountsParse(ANegBanks, [18, 11]);
  }

  /** The stock labels of the B+ and B- banks parse. */
  lemma BGroupStocksParse()
    ensures StocksParse(BPosBanks) && StocksParse(BNegBanks)
  {
    assert StockCounts(BPosBanks, [89, 56]);
    CountsParse(BPosBanks, [89, 56]);
    assert StockCounts(BNegBanks, [9]);
    CountsParse(BNegBanks, [9]);
  }

  /** The stock labels of the AB+ and AB- banks parse. */
  lemma ABGroupStocksParse()
    ensures StocksParse(ABPosBanks) && StocksParse(ABNegBanks)
  {
    assert StockCounts(ABPosBanks, [24, 15]);
    CountsParse(ABPosBanks, [24, 15]);
    assert StockCounts(ABNegBanks, [5]);
    CountsParse(ABNegBanks, [5]);
  }

  /** Every stock label in `MOCK_BLOOD_BANKS` holds a count that `parseInt` reads. */
  lemma TableStocksParse()
    ensures forall g :: g in MockBloodBanks ==> StocksParse(MockBloodBanks[g])
  {
    OGroupStocksParse();
    AGroupStocksParse();
    BGroupStocksParse();
    ABGroupStocksParse();
  }



  // ---------------------------------------------------------------------------
  // Blood-group normalisation

  predicate NoJsSpace(s: string) {
    forall i :: 0 <= i < |s| ==> !IsJsSpace(s[i])
  }

  /** `s.replace(/\s+/g, '+')`: each maximal run of white space becomes a single `'+'`. */
  function CollapseSpaces(s: string): (r: string)
    ensures |r| <= |s|
    ensures NoJsSpace(r)
    decreases |s|
  {
    if s == [] then []
    else if IsJsSpace(s[0]) then ['+'] + CollapseSpaces(DropJsSpace(s))
    else [s[0]] + CollapseSpaces(s[1..])
  }

  /** A string without white space is left as it is. */
  lemma {:induction false} CollapseKeepsSpaceFree(s: string)
    requires NoJsSpace(s)
    ensures CollapseSpaces(s) == s
  {
    if s != [] {
      CollapseKeepsSpaceFree(s[1..]);
    }
  }

  /** Skipping white space runs through a block of it and stops at the first other character. */
  lemma {:induction false} DropJsSpaceOverRun(w: string, b: string)
    requires forall i :: 0 <= i < |w| ==> IsJsSpace(w[i])
    requires b == [] || !IsJsSpace(b[0])
    ensures DropJsSpace(w + b) == b
  {
    if w == [] {
      assert w + b == b;
    } else {
      assert (w + b)[1..] == w[1..] + b;
      DropJsSpaceOverRun(w[1..], b);
    }
  }

  /** A string ending in a non-space character keeps its tail when white space is skipped. */
  lemma {:induction false} DropJsSpaceAppend(a: string, c: string)
    requires a != [] && !IsJsSpace(a[|a| - 1])
    ensures DropJsSpace(a + c) == DropJsSpace(a) + c
    ensures DropJsSpace(a) != [] && DropJsSpace(a)[|DropJsSpace(a)| - 1] == a[|a| - 1]
  {
    assert (a + c)[0] == a[0];
    if IsJsSpace(a[0]) {
      assert (a + c)[1..] == a[1..] + c;
      DropJsSpaceAppend(a[1..], c);
    }
  }

  /** Collapsing distributes over a split point that follows a non-space character. */
  lemma {:induction false} CollapseAppend(a: string, b: string)
    requires a == [] || !IsJsSpace(a[|a| - 1])
    ensures CollapseSpaces(a + b) == CollapseSpaces(a) + CollapseSpaces(b)
    decreases |a|
  {
    if a == [] {
      assert a + b == b;
    } else if IsJsSpace(a[0]) {
      assert (a + b)[0] == a[0];
      DropJsSpaceAppend(a, b);
      CollapseAppend(DropJsSpace(a), b);
    } else {
      assert (a + b)[0] == a[0];
      assert (a + b)[1..] == a[1..] + b;
      CollapseAppend(a[1..], b);
    }
  }

  /** A leading white-space run becomes one `'+'` in front of the rest. */
  lemma CollapseLeadingRun(w: string, b: string)
    requires w != [] && forall i :: 0 <= i < |w| ==> IsJsSpace(w[i])
    requires b == [] || !IsJsSpace(b[0])
    ensures CollapseSpaces(w + b) == "+" + CollapseSpaces(b)
  {
    assert (w + b)[0] == w[0];
    DropJsSpaceOverRun(w, b);
  }

  /**
   * The rule of `replace(/\s+/g, '+')`: a maximal run `w` of white space
   * between `a` and `b` becomes exactly one `'+'`, and the parts around it are
   * collapsed on their own.
   */
  lemma CollapseRun(a: string, w: string, b: string)
    requires w != [] && forall i :: 0 <= i < |w| ==> IsJsSpace(w[i])
    requires a == [] || !IsJsSpace(a[|a| - 1])
    requires b == [] || !IsJsSpace(b[0])
    ensures CollapseSpaces(a + w + b) == CollapseSpaces(a) + "+" + CollapseSpaces(b)
  {
    var wb := w + b;
    calc {
      CollapseSpaces(a + w + b);
      { assert a + w + b == a + wb; }
      CollapseSpaces(a + wb);
      { CollapseAppend(a, wb); }
      CollapseSpaces(a) + CollapseSpaces(wb);
      { CollapseLeadingRun(w, b); }
      CollapseSpaces(a) + ("+" + CollapseSpaces(b));
    }
  }

  /** The query's `bg` upper-cased with white-space runs turned into `'+'`; absent or empty means `'O+'`. */
  function NormalizeBg(bg: Option<string>): (r: string)
    ensures bg.None? || bg.value == "" ==> r == "O+"
    ensures bg.Some? && bg.value != "" ==> r == Upper(CollapseSpaces(bg.value))
    ensures NoJsSpace(r)
  {
    if bg.None? || bg.value == "" then "O+" else Upper(CollapseSpaces(bg.value))
  }

  /**
   * A group sent as `a`, a white-space run, then `b` normalises to the two
   * parts upper-cased and joined by one `'+'`.
   */
  lemma NormalizeRun(a: string, w: string, b: string)
    requires w != [] && forall i :: 0 <= i < |w| ==> IsJsSpace(w[i])
    requires a == [] || !IsJsSpace(a[|a| - 1])
    requires b == [] || !IsJsSpace(b[0])
    ensures NormalizeBg(Some(a + w + b)) == Upper(CollapseSpaces(a)) + "+" + Upper(CollapseSpaces(b))
  {
    CollapseRun(a, w, b);
    var ca, cb := CollapseSpaces(a), CollapseSpaces(b);
    assert a + w + b != "" by { assert |a + w + b| >= |w|; }
    var u := Upper(ca + "+" + cb);
    assert u == Upper(ca) + "+" + Upper(cb) by {
      assert |u| == |Upper(ca) + "+" + Upper(cb)|;
      forall i | 0 <= i < |u|
        ensures u[i] == (Upper(ca) + "+" + Upper(cb))[i]
      {
        if i < |ca| {
        } else if i == |ca| {
        } else {
          assert (ca + "+" + cb)[i] == cb[i - |ca| - 1];
        }
      }
    }
  }

  /** A query string turns an unescaped `'+'` into a space: `'ab '` comes back as `'AB+'`. */
  lemma NormalizeRestoresPlus()
    ensures NormalizeBg(Some("ab ")) == "AB+"
    ensures NormalizeBg(Some("o  ")) == "O+"
  {
    assert CollapseSpaces(DropJsSpace(" ")) == [];
    assert CollapseSpaces(DropJsSpace("  ")) == [];
    assert CollapseSpaces("b ") == "b+";
    assert CollapseSpaces("ab ") == "ab+";
    assert CollapseSpaces("o  ") == "o+";
  }

  /** Each table key is its own normal form. */
  lemma NormalizeFixesTableKeys(g: string)
    requires g in MockBloodBanks
    ensures NormalizeBg(Some(g)) == g
  {
    assert forall i :: 0 <= i < |g| ==> g[i] in "ABO+-";
    CollapseKeepsSpaceFree(g);
    UpperOfNoLower(g);
  }

  /** `MOCK_BLOOD_BANKS[normalizedBg] || MOCK_BLOOD_BANKS['O+']`. */
  function BanksFor(normalized: string): (r: seq<BloodBank>)
    ensures normalized in MockBloodBanks ==> r == MockBloodBanks[normalized]
    ensures normalized !in MockBloodBanks ==> r == MockBloodBanks["O+"]
    ensures r != []
  {
    if normalized in MockBloodBanks then MockBloodBanks[normalized] else MockBloodBanks["O+"]
  }

  // ---------------------------------------------------------------------------
  // Stock jitter

  /** `Math.floor(Math.random() * 10 - 5)`. */
  function StockOffset(u: Draw): (r: int)
    ensures -5 <= r <= 4
  {
    (u * 10.0 - 5.0).Floor
  }

  function Max(a: int, b: int): int {
    if a < b then b else a
  }

  /**
   * `` `${Math.max(1, parseInt(stock) + offset)} Units` ``: a new label whose
   * count is at least 1, at most the old count plus 4 (or 1) and at least
   * the old count minus 5; a label without a number gives `"NaN Units"`.
   */
  function JitterStock(stock: string, u: Draw): (r: string)
    ensures ParseInt(stock).None? ==> r == "NaN Units"
    ensures ParseInt(stock).Some? ==>
              var n := ParseInt(stock).value;
              ParseInt(r).Some? && 1 <= ParseInt(r).value &&
              n - 5 <= ParseInt(r).value <= Max(1, n + 4) &&
              r == Units(ParseInt(r).value)
  {
    match ParseInt(stock)
    case None => "NaN Units"
    case Some(n) =>
      var k := Max(1, n + StockOffset(u));
      ParseIntOfUnits(k);
      Units(k)
  }

  // ---------------------------------------------------------------------------
  // Routes

  /**
   * `GET /nearby-blood-stock`: the banks for the normalised group (or the O+
   * list), in table order, each with every field kept but `stock`, which is
   * jittered with the `i`-th random draw. `lat` and `long` are ignored.
   */
  function NearbyBloodStock(bg: Option<string>, random: Randoms): (r: Response<BloodBank>)
    ensures r.success && r.source == "Mock Data"
    ensures r.count == |r.data| == |BanksFor(NormalizeBg(bg))|
    ensures forall i :: 0 <= i < |r.data| ==>
              var b := BanksFor(NormalizeBg(bg))[i];
              r.data[i] == b.(stock := r.data[i].stock) && r.data[i].stock == JitterStock(b.stock, random(i))
  {
    var banks := BanksFor(NormalizeBg(bg));
    var data := seq(|banks|, i requires 0 <= i < |banks| =>
                      banks[i].(stock := JitterStock(banks[i].stock, random(i))));
    Response(true, |data|, data, "Mock Data")
  }

  /** The route never returns an empty list: an unknown group is served the O+ banks. */
  lemma UnknownGroupServesOPlus(bg: Option<string>, random: Randoms)
    requires NormalizeBg(bg) !in MockBloodBanks
    ensures var r := NearbyBloodStock(bg, random);
            |r.data| == |MockBloodBanks["O+"]| == 4 &&
            forall i :: 0 <= i < 4 ==>
                          var b := MockBloodBanks["O+"][i];
                          r.data[i] == b.(stock := JitterStock(b.stock, random(i)))
  {
  }

  /** Each returned stock reads back as a count between 1 and the table count plus 4. */
  lemma ReturnedStockBounds(bg: Option<string>, random: Randoms, i: nat)
    requires i < |NearbyBloodStock(bg, random).data|
    ensures var base := ParseInt(BanksFor(NormalizeBg(bg))[i].stock);
            var out := ParseInt(NearbyBloodStock(bg, random).data[i].stock);
            base.Some? && out.Some? && 1 <= out.value <= base.value + 4 && base.value - 5 <= out.value
  {
    TableStocksParse();
    var n := NormalizeBg(bg);
    assert BanksFor(n) == MockBloodBanks[if n in MockBloodBanks then n else "O+"];
  }

  /** `GET /nearby-facilities`: `lat`, `long` and `radius` are ignored; all eight facilities come back. */
  function NearbyFacilities(lat: Option<string>, long: Option<string>, radius: Option<string>): (r: Response<Facility>)
    ensures r.success && r.count == |r.data| == 8 && r.data == MockFacilities
  {
    Response(true, |MockFacilities|, MockFacilities, "Mock Data")
  }
}
