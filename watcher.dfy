/**
 * The listing watcher: a working set of scheduled token listings, reloaded
 * wholesale from a listings file, and a scan that reports every listing whose
 * scheduled minute is now and whose token has no order in flight.
 *
 * The clock is the `Now` parameter; the file system is a map from file name to
 * the decoded file (None when its text is not a JSON array of listings).
 */
module ListingWatcher {
  import opened Wrappers
  import opened Digits

  /** One scheduled listing: its date as text ("YYYY-MM-DD HH:MM") and the token. */
  datatype Listing = Listing(listingDate: string, token: string)

  /** A listing instant as `%Y-%m-%d %H:%M` denotes it (the seconds are zero). */
  datatype ListingDate = ListingDate(year: int, month: int, day: int, hour: int, minute: int)

  /** The current UTC time, field by field. */
  datatype Now = Now(year: int, month: int, day: int, hour: int, minute: int, second: int)

  /** What one scan did: the tokens reported for buying, in listing order, and whether it stopped on a bad date. */
  datatype ScanResult = ScanResult(bought: seq<string>, aborted: bool)

  datatype ReloadFault = UnreadableFile | MalformedJson

  predicate IsLeapYear(year: int) {
    (year % 4 == 0 && year % 100 != 0) || year % 400 == 0
  }

  /** Days in a month of the proleptic Gregorian calendar. */
  function DaysInMonth(year: int, month: int): int
    requires 1 <= month <= 12
  {
    if month == 2 then (if IsLeapYear(year) then 29 else 28)
    else if month == 4 || month == 6 || month == 9 || month == 11 then 30
    else 31
  }

  /** A real calendar minute that four-digit years can write. */
  predicate ValidListingDate(d: ListingDate) {
    0 <= d.year <= 9999 && 1 <= d.month <= 12 && 1 <= d.day <= DaysInMonth(d.year, d.month)
    && 0 <= d.hour < 24 && 0 <= d.minute < 60
  }

  /** The fixed-width layout "DDDD-DD-DD DD:DD". */
  predicate HasDateShape(s: string) {
    |s| == 16
    && AllDigits(s[0..4]) && s[4] == '-' && AllDigits(s[5..7]) && s[7] == '-' && AllDigits(s[8..10])
    && s[10] == ' ' && AllDigits(s[11..13]) && s[13] == ':' && AllDigits(s[14..16])
  }

  /** Parse a listing date with the format `%Y-%m-%d %H:%M`; None for text that is not a real minute. */
  function ParseListingDate(s: string): (r: Option<ListingDate>)
    ensures r.Some? ==> ValidListingDate(r.value)
    ensures r.Some? ==> HasDateShape(s)
  {
    if !HasDateShape(s) then None
    else
      var d := ListingDate(Value(s[0..4]), Value(s[5..7]), Value(s[8..10]), Value(s[11..13]), Value(s[14..16]));
      if ValidListingDate(d) then Some(d) else None
  }

  /** Write a listing date in the layout the listings file uses. */
  function FormatListingDate(d: ListingDate): string
    requires ValidListingDate(d)
  {
    Padded(d.year, 4) + "-" + Padded(d.month, 2) + "-" + Padded(d.day, 2)
    + " " + Padded(d.hour, 2) + ":" + Padded(d.minute, 2)
  }

  /** Every real minute written in the file's layout parses back to itself. */
  lemma ParseFormatted(d: ListingDate)
    requires ValidListingDate(d)
    ensures ParseListingDate(FormatListingDate(d)) == Some(d)
  {
    var s := FormatListingDate(d);
    assert s[0..4] == Padded(d.year, 4);
    assert s[5..7] == Padded(d.month, 2);
    assert s[8..10] == Padded(d.day, 2);
    assert s[11..13] == Padded(d.hour, 2);
    assert s[14..16] == Padded(d.minute, 2);
    assert Pow10(2) == 100 && Pow10(4) == 10000;
    ValueOfPadded(d.year, 4);
    ValueOfPadded(d.month, 2);
    ValueOfPadded(d.day, 2);
    ValueOfPadded(d.hour, 2);
    ValueOfPadded(d.minute, 2);
  }

  /** Every text that parses is the file layout of what it parses to: the parser accepts one spelling per minute. */
  lemma FormatParsed(s: string)
    requires ParseListingDate(s).Some?
    ensures FormatListingDate(ParseListingDate(s).value) == s
  {
    PaddedOfValue(s[0..4]);
    PaddedOfValue(s[5..7]);
    PaddedOfValue(s[8..10]);
    PaddedOfValue(s[11..13]);
    PaddedOfValue(s[14..16]);
    assert s == s[0..4] + "-" + s[5..7] + "-" + s[8..10] + " " + s[11..13] + ":" + s[14..16];
  }

  /** The comparison as the source writes it: year, month, day and minute, but not the hour. */
  predicate DateMatchesAsWritten(now: Now, d: ListingDate) {
    now.year == d.year && now.month == d.month && now.day == d.day && now.minute == d.minute
  }

  /** The comparison the watcher is meant to make: the same calendar minute, hour included. */
  predicate DateMatchesIntended(now: Now, d: ListingDate) {
    now.year == d.year && now.month == d.month && now.day == d.day && now.hour == d.hour && now.minute == d.minute
  }

  /** A listing is reported when its date parses, matches now, and its token has no order in flight. */
  predicate Matches(now: Now, listing: Listing, ongoing: seq<string>) {
    var parsed := ParseListingDate(listing.listingDate);
    parsed.Some? && DateMatchesAsWritten(now, parsed.value) && listing.token !in ongoing
  }

  /**
   * What one pass over `listings` reports: the matching tokens in order, up to
   * the first listing whose date does not parse, where the pass stops.
   */
  function Scan(now: Now, listings: seq<Listing>, ongoing: seq<string>): ScanResult
  {
    if listings == [] then ScanResult([], false)
    else if ParseListingDate(listings[0].listingDate).None? then ScanResult([], true)
    else
      var rest := Scan(now, listings[1..], ongoing);
      if Matches(now, listings[0], ongoing) then ScanResult([listings[0].token] + rest.bought, rest.aborted)
      else rest
  }

  /** A scan stops early exactly when some listing date does not parse, that is when the first bad date lies inside the listings. */
  lemma {:induction false} ScanAbortsIffMalformed(now: Now, listings: seq<Listing>, ongoing: seq<string>)
    ensures Scan(now, listings, ongoing).aborted
        <==> exists i :: 0 <= i < |listings| && ParseListingDate(listings[i].listingDate).None?
    ensures Scan(now, listings, ongoing).aborted <==> FirstMalformed(listings) < |listings|
  {
    if listings != [] && ParseListingDate(listings[0].listingDate).Some? {
      ScanAbortsIffMalformed(now, listings[1..], ongoing);
      assert forall i :: 1 <= i < |listings| ==> listings[i] == listings[1..][i - 1];
      assert forall i :: 0 <= i < |listings| - 1 ==> listings[1..][i] == listings[i + 1];
    }
  }

  /** Every reported token belongs to a listing that matches now, so none is in flight. */
  lemma {:induction false} ScanReportsOnlyMatches(now: Now, listings: seq<Listing>, ongoing: seq<string>, t: string)
    requires t in Scan(now, listings, ongoing).bought
    ensures t !in ongoing
    ensures exists i :: 0 <= i < |listings| && listings[i].token == t && Matches(now, listings[i], ongoing)
  {
    if listings[0].token == t && Matches(now, listings[0], ongoing) {
    } else {
      ScanReportsOnlyMatches(now, listings[1..], ongoing, t);
      var i :| 0 <= i < |listings[1..]| && listings[1..][i].token == t && Matches(now, listings[1..][i], ongoing);
      assert listings[i + 1] == listings[1..][i];
    }
  }

  /** The position of the first listing whose date does not parse, or the length when every date parses. */
  function FirstMalformed(listings: seq<Listing>): (k: nat)
    ensures k <= |listings|
    ensures forall i :: 0 <= i < k ==> ParseListingDate(listings[i].listingDate).Some?
    ensures k < |listings| ==> ParseListingDate(listings[k].listingDate).None?
  {
    if listings == [] || ParseListingDate(listings[0].listingDate).None? then 0
    else
      var k := 1 + FirstMalformed(listings[1..]);
      assert forall i :: 1 <= i < k ==> listings[i] == listings[1..][i - 1];
      k
  }

  /** Every listing before the first bad date that matches is reported, whether or not the scan then stops. */
  lemma {:induction false} ScanReportsEveryMatch(now: Now, listings: seq<Listing>, ongoing: seq<string>, i: nat)
    requires i < FirstMalformed(listings) && Matches(now, listings[i], ongoing)
    ensures listings[i].token in Scan(now, listings, ongoing).bought
  {
    if i > 0 {
      assert listings[1..][i - 1] == listings[i];
      ScanReportsEveryMatch(now, listings[1..], ongoing, i - 1);
    }
  }

  predicate StrictlyIncreasing(s: seq<nat>) {
    forall j1, j2 :: 0 <= j1 < j2 < |s| ==> s[j1] < s[j2]
  }

  lemma PrependKeepsOrder(first: nat, s: seq<nat>)
    requires StrictlyIncreasing(s) && forall j :: 0 <= j < |s| ==> first < s[j]
    ensures StrictlyIncreasing([first] + s)
  {
    var t := [first] + s;
    forall j1, j2 | 0 <= j1 < j2 < |t|
      ensures t[j1] < t[j2]
    {
      assert t[j2] == s[j2 - 1];
      if j1 > 0 {
        assert t[j1] == s[j1 - 1];
      }
    }
  }

  /**
   * `idx` locates `bought` among the listings at positions `lo` to `hi`:
   * one increasing position per reported token, each a matching listing that
   * carries that token, and every matching listing in the range among them.
   */
  ghost predicate Locates(now: Now, listings: seq<Listing>, ongoing: seq<string>, lo: nat, hi: nat,
                          bought: seq<string>, idx: seq<nat>)
    requires lo <= hi <= |listings|
  {
    && |idx| == |bought|
    && StrictlyIncreasing(idx)
    && (forall j :: 0 <= j < |idx| ==>
          lo <= idx[j] < hi && Matches(now, listings[idx[j]], ongoing) && bought[j] == listings[idx[j]].token)
    && (forall i :: lo <= i < hi && Matches(now, listings[i], ongoing) ==> i in idx)
  }

  /** A matching listing at `lo` goes in front of the report on the rest of the range. */
  lemma LocatesWithHead(now: Now, listings: seq<Listing>, ongoing: seq<string>, lo: nat, hi: nat,
                        bought: seq<string>, idx: seq<nat>)
    requires lo < hi <= |listings| && Matches(now, listings[lo], ongoing)
    requires Locates(now, listings, ongoing, lo + 1, hi, bought, idx)
    ensures Locates(now, listings, ongoing, lo, hi, [listings[lo].token] + bought, [lo] + idx)
  {
    PrependKeepsOrder(lo, idx);
    var b := [listings[lo].token] + bought;
    var t := [lo] + idx;
    forall j | 0 <= j < |t|
      ensures lo <= t[j] < hi && Matches(now, listings[t[j]], ongoing) && b[j] == listings[t[j]].token
    {
      if j > 0 {
        assert t[j] == idx[j - 1] && b[j] == bought[j - 1];
      }
    }
    forall i | lo <= i < hi && Matches(now, listings[i], ongoing)
      ensures i in t
    {
      if i > lo {
        assert i in idx;
      }
    }
  }

  /** A listing at `lo` that does not match changes nothing in the report on the rest of the range. */
  lemma LocatesPastHead(now: Now, listings: seq<Listing>, ongoing: seq<string>, lo: nat, hi: nat,
                        bought: seq<string>, idx: seq<nat>)
    requires lo < hi <= |listings| && !Matches(now, listings[lo], ongoing)
    requires Locates(now, listings, ongoing, lo + 1, hi, bought, idx)
    ensures Locates(now, listings, ongoing, lo, hi, bought, idx)
  {
    forall i | lo <= i < hi && Matches(now, listings[i], ongoing)
      ensures i in idx
    {
      assert i != lo;
    }
  }

  /**
   * The report of a scan that starts at position `from`, located in the whole
   * listings up to the first bad date after `from`.
   */
  lemma {:induction false} SuffixReportIndices(now: Now, listings: seq<Listing>, ongoing: seq<string>, from: nat)
    returns (idx: seq<nat>)
    requires from <= |listings|
    decreases |listings| - from
    ensures from + FirstMalformed(listings[from..]) <= |listings|
    ensures Locates(now, listings, ongoing, from, from + FirstMalformed(listings[from..]),
                    Scan(now, listings[from..], ongoing).bought, idx)
  {
    var suffix := listings[from..];
    if from == |listings| || ParseListingDate(listings[from].listingDate).None? {
      return [];
    }
    assert suffix[0] == listings[from] && suffix[1..] == listings[from + 1..];
    var rest := SuffixReportIndices(now, listings, ongoing, from + 1);
    var hi := from + FirstMalformed(suffix);
    assert hi == from + 1 + FirstMalformed(listings[from + 1..]);
    var restBought := Scan(now, listings[from + 1..], ongoing).bought;
    if Matches(now, listings[from], ongoing) {
      assert Scan(now, suffix, ongoing).bought == [listings[from].token] + restBought;
      LocatesWithHead(now, listings, ongoing, from, hi, restBought, rest);
      idx := [from] + rest;
    } else {
      assert Scan(now, suffix, ongoing).bought == restBought;
      LocatesPastHead(now, listings, ongoing, from, hi, restBought, rest);
      idx := rest;
    }
  }

  /**
   * The report lists the matching listings before the first bad date, each
   * exactly once and in listing order: `idx` gives, for each reported token,
   * the position of its listing.
   */
  lemma ScanReportIndices(now: Now, listings: seq<Listing>, ongoing: seq<string>)
    returns (idx: seq<nat>)
    ensures |idx| == |Scan(now, listings, ongoing).bought|
    ensures forall j :: 0 <= j < |idx| ==>
      idx[j] < FirstMalformed(listings) && Matches(now, listings[idx[j]], ongoing)
      && Scan(now, listings, ongoing).bought[j] == listings[idx[j]].token
    ensures StrictlyIncreasing(idx)
    ensures forall i :: 0 <= i < FirstMalformed(listings) && Matches(now, listings[i], ongoing) ==> i in idx
  {
    assert listings[0..] == listings;
    idx := SuffixReportIndices(now, listings, ongoing, 0);
  }

  /**
   * The scan looks at the year, month, day and minute of now and nothing else:
   * two times that differ only in their seconds (or, as written, in their hour)
   * report the same tokens.
   */
  lemma {:induction false} ScanSeesOnlyComparedFields(now1: Now, now2: Now, listings: seq<Listing>, ongoing: seq<string>)
    requires now1.year == now2.year && now1.month == now2.month && now1.day == now2.day && now1.minute == now2.minute
    ensures Scan(now1, listings, ongoing) == Scan(now2, listings, ongoing)
  {
    if listings != [] {
      ScanSeesOnlyComparedFields(now1, now2, listings[1..], ongoing);
    }
  }

  /**
   * Once the reported tokens are put in flight, scanning again within the same
   * minute reports nothing: each listing is bought at most once.
   */
  lemma {:induction false} ScanQuietOnceInFlight(now: Now, listings: seq<Listing>, ongoing: seq<string>, inFlight: seq<string>)
    requires forall t :: t in ongoing ==> t in inFlight
    requires forall t :: t in Scan(now, listings, ongoing).bought ==> t in inFlight
    ensures Scan(now, listings, inFlight).bought == []
  {
    if listings != [] && ParseListingDate(listings[0].listingDate).Some? {
      var rest := Scan(now, listings[1..], ongoing);
      assert forall t :: t in rest.bought ==> t in Scan(now, listings, ongoing).bought;
      ScanQuietOnceInFlight(now, listings[1..], ongoing, inFlight);
      if Matches(now, listings[0], ongoing) {
        assert listings[0].token in Scan(now, listings, ongoing).bought;
      }
    }
  }

  /** The zero-padded fields of the example date. */
  lemma ExampleFields()
    ensures Padded(2024, 4) == "2024" && Padded(1, 2) == "01" && Padded(12, 2) == "12" && Padded(0, 2) == "00"
  {
    assert DigitChar(0) == '0' && DigitChar(1) == '1' && DigitChar(2) == '2' && DigitChar(4) == '4';
    assert Padded(0, 0) == [];
    assert Padded(2, 1) == Padded(0, 0) + ['2'];
    assert Padded(20, 2) == Padded(2, 1) + ['0'];
    assert Padded(202, 3) == Padded(20, 2) + ['2'];
    assert Padded(2024, 4) == Padded(202, 3) + ['4'];
    assert Padded(0, 1) == Padded(0, 0) + ['0'];
    assert Padded(1, 1) == Padded(0, 0) + ['1'];
    assert Padded(1, 2) == Padded(0, 1) + ['1'];
    assert Padded(12, 2) == Padded(1, 1) + ['2'];
    assert Padded(0, 2) == Padded(0, 1) + ['0'];
  }

  /** The example date in the file's layout. */
  lemma ExampleLayout()
    ensures FormatListingDate(ListingDate(2024, 1, 1, 12, 0)) == "2024-01-01 12:00"
  {
    ExampleFields();
    assert "2024" + "-" + "01" + "-" + "01" + " " + "12" + ":" + "00" == "2024-01-01 12:00";
  }

  /** The date of the example listing parses to 12:00 on 2024-01-01. */
  lemma ExampleDateParses()
    ensures ParseListingDate("2024-01-01 12:00") == Some(ListingDate(2024, 1, 1, 12, 0))
  {
    ExampleLayout();
    ParseFormatted(ListingDate(2024, 1, 1, 12, 0));
  }

  /** Finding: as written, a listing scheduled for 12:00 is also reported at 13:00 the same day. */
  lemma HourNotCompared()
    ensures Scan(Now(2024, 1, 1, 13, 0, 0), [Listing("2024-01-01 12:00", "ABC")], []).bought == ["ABC"]
  {
    var listings := [Listing("2024-01-01 12:00", "ABC")];
    ExampleDateParses();
    assert listings[1..] == [];
    assert Matches(Now(2024, 1, 1, 13, 0, 0), listings[0], []);
  }

  /** The corrected condition: the listing's date is now's calendar minute, hour included, and its token is not in flight. */
  predicate MatchesIntended(now: Now, listing: Listing, ongoing: seq<string>) {
    var parsed := ParseListingDate(listing.listingDate);
    parsed.Some? && DateMatchesIntended(now, parsed.value) && listing.token !in ongoing
  }

  /** The corrected scan: the same walk as `Scan`, with the hour compared. */
  function ScanIntended(now: Now, listings: seq<Listing>, ongoing: seq<string>): ScanResult
  {
    if listings == [] then ScanResult([], false)
    else if ParseListingDate(listings[0].listingDate).None? then ScanResult([], true)
    else
      var rest := ScanIntended(now, listings[1..], ongoing);
      if MatchesIntended(now, listings[0], ongoing) then ScanResult([listings[0].token] + rest.bought, rest.aborted)
      else rest
  }

  /** The listing's date parses to exactly now's year, month, day, hour and minute. */
  predicate OwnMinute(now: Now, listing: Listing) {
    ParseListingDate(listing.listingDate) == Some(ListingDate(now.year, now.month, now.day, now.hour, now.minute))
  }

  /**
   * With the hour compared, a listing is reported only in its own minute:
   * every reported token has a listing whose date is now's year, month, day,
   * hour and minute, and whose token is not in flight.
   */
  lemma {:induction false} IntendedScanReportsOwnMinute(now: Now, listings: seq<Listing>, ongoing: seq<string>, t: string)
    requires t in ScanIntended(now, listings, ongoing).bought
    ensures t !in ongoing
    ensures exists i :: 0 <= i < |listings| && listings[i].token == t && OwnMinute(now, listings[i])
  {
    if !(listings[0].token == t && MatchesIntended(now, listings[0], ongoing)) {
      IntendedScanReportsOwnMinute(now, listings[1..], ongoing, t);
      var i :| 0 <= i < |listings[1..]| && listings[1..][i].token == t && OwnMinute(now, listings[1..][i]);
      assert listings[i + 1] == listings[1..][i];
    }
  }

  /** The corrected scan does not report the 12:00 listing at 13:00. */
  lemma IntendedScanSkipsOtherHour()
    ensures ScanIntended(Now(2024, 1, 1, 13, 0, 0), [Listing("2024-01-01 12:00", "ABC")], []).bought == []
  {
    var listings := [Listing("2024-01-01 12:00", "ABC")];
    ExampleDateParses();
    assert listings[1..] == [];
    assert !MatchesIntended(Now(2024, 1, 1, 13, 0, 0), listings[0], []);
  }

  /** `ongoing.iter().any(|s| s == token)`: a linear search of the in-flight tokens. */
  method Contains(ongoing: seq<string>, token: string) returns (found: bool)
    ensures found <==> token in ongoing
  {
    var i := 0;
    while i < |ongoing|
      invariant 0 <= i <= |ongoing|
      invariant token !in ongoing[..i]
    {
      if ongoing[i] == token {
        return true;
      }
      i := i + 1;
    }
    assert ongoing[..i] == ongoing;
    return false;
  }

  /** The listings file the watcher reads: the test file in test mode. */
  function Filename(test: bool): (name: string)
    ensures name == "listings_test.json" <==> test
    ensures name == "listings.json" <==> !test
  {
    if test then "listings_test.json" else "listings.json"
  }

  class Watcher {
    var listingJson: seq<Listing>
    const test: bool

    /** A watcher over an already decoded listings file. */
    constructor (test: bool, listings: seq<Listing>)
      ensures this.test == test && listingJson == listings
    {
      this.test := test;
      listingJson := listings;
    }

    /**
     * reload_json: read the mode's listings file and make its listings the
     * working set, replacing the old one whole. A missing file or one that
     * does not decode stops the watcher (a panic in the source).
     */
    method ReloadJson(files: map<string, Option<seq<Listing>>>) returns (r: Result<(), ReloadFault>)
      modifies this`listingJson
      ensures r.Ok? <==> Filename(test) in files && files[Filename(test)].Some?
      ensures test && r.Ok? ==> listingJson == files["listings_test.json"].value
      ensures !test && r.Ok? ==> listingJson == files["listings.json"].value
      ensures Filename(test) !in files ==> r == Err(UnreadableFile)
      ensures Filename(test) in files && files[Filename(test)].None? ==> r == Err(MalformedJson)
      ensures r.Err? ==> listingJson == old(listingJson)
    {
      var filename := Filename(test);
      if filename !in files {
        return Err(UnreadableFile);
      }
      var decoded := files[filename];
      if decoded.None? {
        return Err(MalformedJson);
      }
      listingJson := decoded.value;
      return Ok(());
    }

    /**
     * check_listing_and_execute_order: walk the listings in order, parse each
     * date (a bad date stops the walk) and report the token of every listing
     * that matches now and has no order in flight. Nothing is changed.
     */
    method CheckListingAndExecuteOrder(now: Now, ongoingOrders: seq<string>) returns (r: ScanResult)
      ensures r == Scan(now, listingJson, ongoingOrders)
    {
      var bought: seq<string> := [];
      var i := 0;
      while i < |listingJson|
        invariant 0 <= i <= |listingJson|
        invariant Scan(now, listingJson, ongoingOrders).bought == bought + Scan(now, listingJson[i..], ongoingOrders).bought
        invariant Scan(now, listingJson, ongoingOrders).aborted == Scan(now, listingJson[i..], ongoingOrders).aborted
      {
        var listing := listingJson[i];
        assert listingJson[i..][1..] == listingJson[i + 1..];
        var parsed := ParseListingDate(listing.listingDate);
        if parsed.None? {
          return ScanResult(bought, true);
        }
        var d := parsed.value;
        if now.year == d.year && now.month == d.month && now.day == d.day && now.minute == d.minute {
          var inFlight := Contains(ongoingOrders, listing.token);
          if !inFlight {
            bought := bought + [listing.token];
          }
        }
        i := i + 1;
      }
      return ScanResult(bought, false);
    }
  }
}
