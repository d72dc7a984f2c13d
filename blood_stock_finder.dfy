/**
 * The blood-stock finder script: blood-group codes, the tolerant parser that
 * turns an eRaktKosh response into numbered table rows, and the status check
 * that `search_blood_stock` applies before parsing.
 *
 * The HTTP request, the interactive prompts and the printing are not
 * modelled; the decoded response (or the error the request raised) is a
 * parameter.
 */
module BloodStockFinder {
  import opened Wrappers
  import opened Text

  // ---------------------------------------------------------------------------
  // Blood-group codes

  /** The eRaktKosh code of each blood group. */
  const BloodGroupCodes: map<string, int> :=
    map["A+" := 11, "A-" := 12, "B+" := 13, "B-" := 14,
        "O+" := 15, "O-" := 16, "AB+" := 17, "AB-" := 18]

  /** The table holds eight groups with eight distinct codes, 11 through 18. */
  lemma BloodGroupCodesAreDistinct()
    ensures BloodGroupCodes.Keys == {"A+", "A-", "B+", "B-", "O+", "O-", "AB+", "AB-"}
    ensures BloodGroupCodes.Values == {11, 12, 13, 14, 15, 16, 17, 18}
    ensures forall g, h :: g in BloodGroupCodes && h in BloodGroupCodes && g != h ==>
              BloodGroupCodes[g] != BloodGroupCodes[h]
  {
  }

  /** The lookup key: the input upper-cased, then stripped of surrounding white space. */
  function NormalizeGroup(bloodGroup: string): string {
    Strip(Upper(bloodGroup))
  }

  /** `get_blood_group_code`: the code of the normalised group, or the `ValueError` it raises. */
  function GetBloodGroupCode(bloodGroup: string): (r: Result<int>)
    ensures r.Success? <==> NormalizeGroup(bloodGroup) in BloodGroupCodes
    ensures r.Success? ==> 11 <= r.value <= 18 && r.value == BloodGroupCodes[NormalizeGroup(bloodGroup)]
  {
    var bg := NormalizeGroup(bloodGroup);
    if bg !in BloodGroupCodes then
      Failure("Invalid blood group: " + bloodGroup
              + ". Valid options: A+, A-, B+, B-, O+, O-, AB+, AB-")
    else
      Success(BloodGroupCodes[bg])
  }

  predicate AllPythonSpace(s: string) {
    forall i :: 0 <= i < |s| ==> IsPythonSpace(s[i])
  }

  lemma {:induction false} StripStartOfPadded(pre: string, t: string)
    requires AllPythonSpace(pre)
    requires t != [] && !IsPythonSpace(t[0])
    ensures StripStart(pre + t) == t
  {
    if pre != [] {
      assert (pre + t)[1..] == pre[1..] + t;
      StripStartOfPadded(pre[1..], t);
    } else {
      assert pre + t == t;
    }
  }

  lemma {:induction false} StripEndOfPadded(t: string, post: string)
    requires AllPythonSpace(post)
    requires t != [] && !IsPythonSpace(t[|t| - 1])
    ensures StripEnd(t + post) == t
  {
    if post != [] {
      assert (t + post)[..|t + post| - 1] == t + post[..|post| - 1];
      StripEndOfPadded(t, post[..|post| - 1]);
    } else {
      assert t + post == t;
    }
  }

  /**
   * Case and surrounding white space do not matter: a group written in lower
   * case with any white space around it yields its code (`' o- '` gives 16).
   */
  lemma CodeIgnoresCaseAndPadding(g: string, pre: string, post: string)
    requires g in BloodGroupCodes
    requires AllPythonSpace(pre) && AllPythonSpace(post)
    ensures GetBloodGroupCode(pre + Lower(g) + post) == Success(BloodGroupCodes[g])
  {
    var s := pre + Lower(g) + post;
    assert Upper(Lower(g)) == g;
    assert Upper(pre) == pre;
    assert Upper(post) == post;
    assert Upper(s) == pre + g + post;
    assert g != [] && !IsPythonSpace(g[0]) && !IsPythonSpace(g[|g| - 1]);
    assert pre + g + post == pre + (g + post);
    StripStartOfPadded(pre, g + post);
    StripEndOfPadded(g, post);
  }

  lemma ExampleLowerCaseOMinus()
    ensures GetBloodGroupCode(" o- ") == Success(16)
  {
    assert " " + Lower("O-") + " " == " o- " by {
      assert Lower("O-") == "o-";
    }
    assert BloodGroupCodes["O-"] == 16;
    CodeIgnoresCaseAndPadding("O-", " ", " ");
  }

  // ---------------------------------------------------------------------------
  // Decoded JSON responses

  /** A decoded JSON value; objects are Python dicts keyed by string. */
  datatype Json =
    | JNull
    | JBool(b: bool)
    | JNum(n: real)
    | JStr(s: string)
    | JArr(items: seq<Json>)
    | JObj(fields: map<string, Json>)

  /** Python truthiness of a decoded value. */
  predicate Truthy(v: Json) {
    match v
    case JNull => false
    case JBool(b) => b
    case JNum(n) => n != 0.0
    case JStr(s) => s != ""
    case JArr(items) => items != []
    case JObj(fields) => fields != map[]
  }

  /** `d.get(k)`: `None` when the key is absent. */
  function Get(d: map<string, Json>, k: string): Json {
    if k in d then d[k] else JNull
  }

  /** `d.get(k, default)`. */
  function GetOr(d: map<string, Json>, k: string, default: Json): Json {
    if k in d then d[k] else default
  }

  // ---------------------------------------------------------------------------
  // Locating the records

  /** The keys tried, in order, for a list of blood banks inside a dict response. */
  const ListKeys: seq<string> := ["data", "result", "bloodBanks", "records", "nearbyBB"]

  /** The keys that make a dict response count as a single record. */
  const NameKeys: seq<string> := ["hospitalName", "bbName", "name"]

  predicate IsListAt(d: map<string, Json>, k: string) {
    k in d && d[k].JArr?
  }

  /** The items of the first key whose value is a list (the loop stops there even if it is empty). */
  function FirstList(d: map<string, Json>, keys: seq<string>): seq<Json> {
    if keys == [] then []
    else if IsListAt(d, keys[0]) then d[keys[0]].items
    else FirstList(d, keys[1..])
  }

  predicate HasNameKey(d: map<string, Json>) {
    exists k :: k in NameKeys && k in d
  }

  /** The records `parse_and_display_results` goes on to format. */
  function Records(data: Json): seq<Json> {
    match data
    case JArr(items) => items
    case JObj(d) =>
      var found := FirstList(d, ListKeys);
      if found != [] then found
      else if "status" !in d && HasNameKey(d) then [data]
      else []
    case _ => []
  }

  lemma {:induction false} FirstListAt(d: map<string, Json>, keys: seq<string>, j: nat)
    requires j < |keys| && IsListAt(d, keys[j])
    requires forall i :: 0 <= i < j ==> !IsListAt(d, keys[i])
    ensures FirstList(d, keys) == d[keys[j]].items
  {
    if j > 0 {
      FirstListAt(d, keys[1..], j - 1);
    }
  }

  lemma {:induction false} FirstListNone(d: map<string, Json>, keys: seq<string>)
    requires forall i :: 0 <= i < |keys| ==> !IsListAt(d, keys[i])
    ensures FirstList(d, keys) == []
  {
    if keys != [] {
      FirstListNone(d, keys[1..]);
    }
  }

  /** The fallback for a dict without a usable list: itself, if it names a bank and carries no status. */
  function SingleRecordFallback(d: map<string, Json>): seq<Json> {
    if "status" !in d && HasNameKey(d) then [JObj(d)] else []
  }

  /**
   * A dict response uses the list under the first of `data`, `result`,
   * `bloodBanks`, `records`, `nearbyBB` that holds a list; when that list is
   * empty, the single-record fallback applies instead.
   */
  lemma RecordsOfDictWithList(d: map<string, Json>, j: nat)
    requires j < |ListKeys| && IsListAt(d, ListKeys[j])
    requires forall i :: 0 <= i < j ==> !IsListAt(d, ListKeys[i])
    ensures Records(JObj(d)) ==
            if d[ListKeys[j]].items != [] then d[ListKeys[j]].items else SingleRecordFallback(d)
  {
    FirstListAt(d, ListKeys, j);
  }

  /** A dict response without any list under those keys is one record or none. */
  lemma RecordsOfDictWithoutList(d: map<string, Json>)
    requires forall i :: 0 <= i < |ListKeys| ==> !IsListAt(d, ListKeys[i])
    ensures Records(JObj(d)) == SingleRecordFallback(d)
    ensures |Records(JObj(d))| == 1 <==>
            "status" !in d && ("hospitalName" in d || "bbName" in d || "name" in d)
  {
    FirstListNone(d, ListKeys);
    assert HasNameKey(d) <==> ("hospitalName" in d || "bbName" in d || "name" in d) by {
      if HasNameKey(d) {
        var k :| k in NameKeys && k in d;
      }
      assert "hospitalName" in NameKeys && "bbName" in NameKeys && "name" in NameKeys;
    }
  }

  /**
   * The record-locating half of `parse_and_display_results`: the loop over
   * the candidate keys that stops at the first list, then the single-record
   * fallback.
   */
  method SelectRecords(data: Json) returns (banks: seq<Json>)
    ensures banks == Records(data)
    ensures data.JArr? ==> banks == data.items
    ensures !data.JArr? && !data.JObj? ==> banks == []
  {
    banks := [];
    if data.JArr? {
      banks := data.items;
    } else if data.JObj? {
      var d := data.fields;
      var i := 0;
      while i < |ListKeys|
        invariant 0 <= i <= |ListKeys|
        invariant banks == []
        invariant FirstList(d, ListKeys) == FirstList(d, ListKeys[i..])
      {
        var key := ListKeys[i];
        if key in d && d[key].JArr? {
          banks := d[key].items;
          break;
        }
        assert ListKeys[i..][1..] == ListKeys[i + 1..];
        i := i + 1;
      }
      if banks == [] && "status" !in d {
        var named := "hospitalName" in d || "bbName" in d || "name" in d;
        assert named <==> HasNameKey(d) by {
          if HasNameKey(d) {
            var k :| k in NameKeys && k in d;
          }
          assert "hospitalName" in NameKeys && "bbName" in NameKeys && "name" in NameKeys;
        }
        banks := if named then [data] else [];
      }
    }
  }

  // ---------------------------------------------------------------------------
  // Formatting the records

  /** The distance cell: numbers (and booleans, which Python counts as int) are shown as `"%.2f km"`. */
  datatype Distance = AsGiven(value: Json) | Kilometres(amount: Json)

  /** One row of the parsed result. */
  datatype Entry = Entry(
    sno: nat,
    hospital: Json,
    distance: Distance,
    address: Json,
    contact: Json,
    component: Json,
    stock: Json)

  /**
   * `bb.get(k1) or bb.get(k2) or ... or bb.get(last, default)`: the first
   * truthy value among `keys`, otherwise whatever the last lookup gives.
   */
  function Pick(bb: map<string, Json>, keys: seq<string>, last: string, default: Json): (r: Json)
    ensures (exists i :: 0 <= i < |keys| && Truthy(Get(bb, keys[i])))
            || r == GetOr(bb, last, default)
    ensures forall i :: 0 <= i < |keys| && Truthy(Get(bb, keys[i])) &&
                        (forall j :: 0 <= j < i ==> !Truthy(Get(bb, keys[j])))
                        ==> r == Get(bb, keys[i])
  {
    if keys == [] then GetOr(bb, last, default)
    else if Truthy(Get(bb, keys[0])) then Get(bb, keys[0])
    else Pick(bb, keys[1..], last, default)
  }

  /** `s[:limit] + '...'` when a string is longer than `limit`; anything else unchanged. */
  function Shorten(v: Json, limit: nat): Json {
    if v.JStr? && |v.s| > limit then JStr(v.s[..limit] + "...") else v
  }

  /**
   * A shortened string keeps at most `limit` of its characters followed by
   * `'...'`; a string within the limit, and any non-string, is unchanged.
   */
  lemma ShortenKeepsPrefix(v: Json, limit: nat)
    ensures v.JStr? ==> Shorten(v, limit).JStr? && |Shorten(v, limit).s| <= limit + 3
    ensures v.JStr? && |v.s| > limit ==>
              Shorten(v, limit).s[..limit] == v.s[..limit] && Shorten(v, limit).s[limit..] == "..."
    ensures !(v.JStr? && |v.s| > limit) ==> Shorten(v, limit) == v
  {
  }

  function FormatDistance(v: Json): Distance {
    if v.JNum? || v.JBool? then Kilometres(v) else AsGiven(v)
  }

  /** The row built for the record `bb` at 1-based position `sno`. */
  function EntryOf(sno: nat, bb: map<string, Json>): Entry {
    Entry(
      sno,
      Shorten(Pick(bb, ["hospitalName", "bbName", "name"], "bloodBankName", JStr("N/A")), 40),
      FormatDistance(Pick(bb, ["distance", "dist"], "distanceKm", JStr("N/A"))),
      Shorten(Pick(bb, ["address", "addr"], "location", JStr("N/A")), 50),
      Pick(bb, ["contactNo", "contact", "phone"], "mobile", JStr("N/A")),
      Pick(bb, ["componentName", "bloodComponent"], "component", JStr("Whole Blood")),
      Pick(bb, ["stock", "quantity", "units"], "availableUnits", JStr("Available")))
  }

  predicate AllDicts(records: seq<Json>) {
    forall i :: 0 <= i < |records| ==> records[i].JObj?
  }

  /** The rows of the first `n` records, numbered from 1. */
  function RowsUpTo(records: seq<Json>, n: nat): seq<Entry>
    requires n <= |records| && forall i :: 0 <= i < n ==> records[i].JObj?
  {
    seq(n, i requires 0 <= i < n => EntryOf(i + 1, records[i].fields))
  }

  /** The rows for `records`, or the error `bb.get` raises on a record that is not a dict. */
  function ParseEntries(records: seq<Json>): Result<seq<Entry>> {
    if AllDicts(records) then
      Success(RowsUpTo(records, |records|))
    else
      Failure("record is not a dict: it has no attribute 'get'")
  }

  /** One row per record, numbered 1..n in input order, each built from its own record. */
  lemma ParsedEntriesShape(records: seq<Json>)
    ensures ParseEntries(records).Success? <==> AllDicts(records)
    ensures ParseEntries(records).Success? ==>
              var es := ParseEntries(records).value;
              |es| == |records| &&
              forall i :: 0 <= i < |es| ==> es[i].sno == i + 1 && es[i] == EntryOf(i + 1, records[i].fields)
  {
  }

  /** The numbering loop of `parse_and_display_results`. */
  method BuildEntries(records: seq<Json>) returns (r: Result<seq<Entry>>)
    ensures r == ParseEntries(records)
    ensures r.Success? ==>
              |r.value| == |records| && forall i :: 0 <= i < |records| ==> r.value[i].sno == i + 1
  {
    var parsed: seq<Entry> := [];
    var idx := 0;
    while idx < |records|
      invariant 0 <= idx <= |records|
      invariant forall i :: 0 <= i < idx ==> records[i].JObj?
      invariant parsed == RowsUpTo(records, idx)
    {
      var bb := records[idx];
      if !bb.JObj? {
        assert !AllDicts(records);
        return Failure("record is not a dict: it has no attribute 'get'");
      }
      parsed := parsed + [EntryOf(idx + 1, bb.fields)];
      idx := idx + 1;
    }
    assert AllDicts(records);
    r := Success(parsed);
  }

  /** What `parse_and_display_results` returns (or raises) for a decoded response. */
  function Parse(data: Json): Result<seq<Entry>> {
    var records := Records(data);
    if records == [] then Success([]) else ParseEntries(records)
  }

  /** `parse_and_display_results` without its printing. */
  method ParseAndDisplayResults(data: Json) returns (r: Result<seq<Entry>>)
    ensures r == Parse(data)
  {
    var banks := SelectRecords(data);
    if banks == [] {
      return Success([]);
    }
    r := BuildEntries(banks);
  }

  // ---------------------------------------------------------------------------
  // The search

  /** The status strings that mark a failed API call, compared after lower-casing. */
  const ErrorStatuses: set<string> := {"error", "failed", "failure", "0"}

  /**
   * The status check of `search_blood_stock`. Only a string can lower-case
   * to one of the error words (a numeric 0 is falsy and skipped), so the
   * check looks at string statuses.
   */
  predicate ReportsError(d: map<string, Json>) {
    var status := if Truthy(Get(d, "status")) then Get(d, "status") else Get(d, "Status");
    Truthy(status) && status.JStr? && Lower(status.s) in ErrorStatuses
  }

  /**
   * `search_blood_stock`: an invalid group, a failed request, an error
   * status or a parse error all give `[]`; otherwise the parsed rows.
   * `response` is what the request returned or the error it raised.
   */
  function SearchBloodStock(bloodGroup: string, response: Result<Json>): (r: seq<Entry>)
    ensures GetBloodGroupCode(bloodGroup).Failure? ==> r == []
    ensures response.Failure? ==> r == []
    ensures response.Success? && response.value.JObj? && ReportsError(response.value.fields) ==> r == []
    ensures GetBloodGroupCode(bloodGroup).Success? && response.Success? &&
            !(response.value.JObj? && ReportsError(response.value.fields)) ==>
              r == if Parse(response.value).Success? then Parse(response.value).value else []
  {
    if GetBloodGroupCode(bloodGroup).Failure? then []
    else if response.Failure? then []
    else
      var data := response.value;
      if data.JObj? && ReportsError(data.fields) then []
      else
        match Parse(data)
        case Success(es) => es
        case Failure(_) => []
  }

  /**
   * With a valid group and no error status, the search returns one row per
   * located record, in order, each built from that record.
   */
  lemma SearchReturnsAllRecords(bloodGroup: string, data: Json)
    requires GetBloodGroupCode(bloodGroup).Success?
    requires !(data.JObj? && ReportsError(data.fields))
    requires AllDicts(Records(data))
    ensures var r := SearchBloodStock(bloodGroup, Success(data));
            |r| == |Records(data)| &&
            forall i :: 0 <= i < |r| ==> r[i] == EntryOf(i + 1, Records(data)[i].fields)
  {
    ParsedEntriesShape(Records(data));
  }

  /**
   * A located record that is not a dict makes `bb.get` raise; the search
   * catches the error and returns no rows.
   */
  lemma NonDictRecordYieldsNothing(bloodGroup: string, data: Json)
    requires !AllDicts(Records(data))
    ensures SearchBloodStock(bloodGroup, Success(data)) == []
  {
    ParsedEntriesShape(Records(data));
  }

  /** A dict whose status is `'Error'`, `'FAILED'`, `'failure'` or `'0'` yields no rows. */
  lemma ErrorStatusYieldsNothing(bloodGroup: string, d: map<string, Json>, s: string)
    requires "status" in d && d["status"] == JStr(s)
    requires Lower(s) in ErrorStatuses
    ensures SearchBloodStock(bloodGroup, Success(JObj(d))) == []
  {
    assert s != "";
  }

  /** Whatever the response, the rows returned by the search are numbered 1..n in order. */
  lemma SearchRowsNumbered(bloodGroup: string, response: Result<Json>)
    ensures var r := SearchBloodStock(bloodGroup, response);
            forall i :: 0 <= i < |r| ==> r[i].sno == i + 1
  {
    if response.Success? {
      ParsedEntriesShape(Records(response.value));
    }
  }
}
