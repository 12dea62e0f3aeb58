/** The summary cards of the domain security view (src/components/SummaryCards.tsx, with the
    record types of src/types/index.ts): one pass over the domains sorts their names into
    http-only, expiring-soon and no-certificate lists, and three cards show those lists. */
module SummaryCards {
  import opened Wrappers
  import opened Seqs

  /** `cert?: [boolean, string?]`: the certificate flag and the optional expiry date text. */
  datatype Cert = Cert(valid: bool, expiry: Option<string>)

  /** `DomainData` without the fields no card reads (`ip`, `cert_details`). `http` and `https`
      are `[number | null]`: None when the tuple is missing, Some(None) when it holds null. */
  datatype DomainData = DomainData(domain: string, http: Option<Option<int>>,
                                   https: Option<Option<int>>, cert: Option<Cert>)

  datatype SummaryStats = SummaryStats(httpOnly: seq<string>, expiringSoon: seq<string>,
                                       noCert: seq<string>)

  const MsPerDay: nat := 1000 * 60 * 60 * 24

  /** `domain.http?.[0] === 200`. */
  predicate StatusIs200(s: Option<Option<int>>) {
    s == Some(Some(200))
  }

  /** HTTP answers 200 and HTTPS does not: missing, null, zero and any other status all count. */
  predicate IsHttpOnly(d: DomainData) {
    StatusIs200(d.http) && !StatusIs200(d.https)
  }

  /** `!domain.cert?.[0]`: no certificate tuple, or its flag is false. */
  predicate HasNoCert(d: DomainData) {
    d.cert.None? || !d.cert.value.valid
  }

  /** The expiry text is truthy: present and not the empty string. */
  predicate HasExpiryText(d: DomainData) {
    d.cert.Some? && d.cert.value.expiry.Some? && d.cert.value.expiry.value != ""
  }

  /** The certificate is valid and its expiry, parsed by `parseDate` (None for an invalid date,
      whose `getTime()` is NaN and fails both comparisons), lies strictly between 0 and 30 days
      after `now`, with the day difference computed as a fraction. */
  predicate IsExpiringSoon(d: DomainData, now: int, parseDate: string -> Option<int>)
    ensures IsExpiringSoon(d, now, parseDate) ==> !HasNoCert(d) && HasExpiryText(d)
  {
    d.cert.Some? && d.cert.value.valid && HasExpiryText(d) &&
    match parseDate(d.cert.value.expiry.value)
    case None => false
    case Some(t) =>
      var diffDays := (t - now) as real / MsPerDay as real;
      diffDays < 30.0 && diffDays > 0.0
  }

  /** The fractional day test is the same as a millisecond window (0, 30 days). */
  lemma ExpiringWindow(d: DomainData, now: int, parseDate: string -> Option<int>)
    requires HasExpiryText(d)
    ensures IsExpiringSoon(d, now, parseDate) <==>
      d.cert.value.valid && parseDate(d.cert.value.expiry.value).Some? &&
      0 < parseDate(d.cert.value.expiry.value).value - now < 30 * MsPerDay
  {
    match parseDate(d.cert.value.expiry.value)
    case None =>
    case Some(t) =>
      var diff := (t - now) as real;
      var day := MsPerDay as real;
      assert diff / day < 30.0 <==> diff < 30.0 * day;
      assert diff / day > 0.0 <==> diff > 0.0;
  }

  /** A domain without a certificate is never expiring soon. */
  lemma NoCertNotExpiring(d: DomainData, now: int, parseDate: string -> Option<int>)
    ensures !(HasNoCert(d) && IsExpiringSoon(d, now, parseDate))
  {
  }

  function ExpiringTest(now: int, parseDate: string -> Option<int>): DomainData -> bool {
    (d: DomainData) => IsExpiringSoon(d, now, parseDate)
  }

  function HttpOnlyTest(): DomainData -> bool {
    (d: DomainData) => IsHttpOnly(d)
  }

  function NoCertTest(): DomainData -> bool {
    (d: DomainData) => HasNoCert(d)
  }

  /** The domain names of a list of records, in order. */
  function Names(ds: seq<DomainData>): (r: seq<string>)
    ensures |r| == |ds| && forall k :: 0 <= k < |ds| ==> r[k] == ds[k].domain
  {
    if ds == [] then [] else [ds[0].domain] + Names(ds[1..])
  }

  lemma {:induction false} NamesAppend(a: seq<DomainData>, b: seq<DomainData>)
    ensures Names(a + b) == Names(a) + Names(b)
  {
    var l, r := Names(a + b), Names(a) + Names(b);
    assert |l| == |r|;
    forall k | 0 <= k < |l|
      ensures l[k] == r[k]
    {
      if k < |a| {
        assert (a + b)[k] == a[k];
      } else {
        assert (a + b)[k] == b[k - |a|];
      }
    }
  }

  /** The three lists as the component computes them: each keeps input order. */
  function HttpOnlyNames(domains: seq<DomainData>): seq<string> {
    Names(Filter(domains, HttpOnlyTest()))
  }

  function NoCertNames(domains: seq<DomainData>): seq<string> {
    Names(Filter(domains, NoCertTest()))
  }

  function ExpiringNames(domains: seq<DomainData>, now: int, parseDate: string -> Option<int>): seq<string> {
    Names(Filter(domains, ExpiringTest(now, parseDate)))
  }

  function Stats(domains: seq<DomainData>, now: int, parseDate: string -> Option<int>): SummaryStats {
    SummaryStats(HttpOnlyNames(domains), ExpiringNames(domains, now, parseDate), NoCertNames(domains))
  }

  /** One classification step: the list for a prefix grows by the next domain's name exactly
      when that domain passes the test. */
  lemma StepFilter(domains: seq<DomainData>, i: nat, p: DomainData -> bool)
    requires i < |domains|
    ensures Names(Filter(domains[..i + 1], p)) ==
      Names(Filter(domains[..i], p)) + (if p(domains[i]) then [domains[i].domain] else [])
  {
    assert domains[..i + 1] == domains[..i] + [domains[i]];
    FilterAppend(domains[..i], [domains[i]], p);
    NamesAppend(Filter(domains[..i], p), Filter([domains[i]], p));
  }

  /** `calculateStats`: the `forEach` loop that pushes each name onto the lists it belongs to. */
  method CalculateStats(domains: seq<DomainData>, now: int, parseDate: string -> Option<int>)
    returns (stats: SummaryStats)
    ensures stats == Stats(domains, now, parseDate)
  {
    var httpOnly: seq<string> := [];
    var expiringSoon: seq<string> := [];
    var noCert: seq<string> := [];
    var i := 0;
    while i < |domains|
      invariant 0 <= i <= |domains|
      invariant httpOnly == Names(Filter(domains[..i], HttpOnlyTest()))
      invariant expiringSoon == Names(Filter(domains[..i], ExpiringTest(now, parseDate)))
      invariant noCert == Names(Filter(domains[..i], NoCertTest()))
    {
      var d := domains[i];
      StepFilter(domains, i, HttpOnlyTest());
      StepFilter(domains, i, ExpiringTest(now, parseDate));
      StepFilter(domains, i, NoCertTest());
      if IsHttpOnly(d) {
        httpOnly := httpOnly + [d.domain];
      }
      if HasNoCert(d) {
        noCert := noCert + [d.domain];
      }
      if IsExpiringSoon(d, now, parseDate) {
        expiringSoon := expiringSoon + [d.domain];
      }
      i := i + 1;
    }
    assert domains[..i] == domains;
    stats := SummaryStats(httpOnly, expiringSoon, noCert);
  }

  /** A filtered name list holds the name of every record that passes the test, and only
      names of records that pass it. */
  lemma FilteredNames(ds: seq<DomainData>, p: DomainData -> bool)
    ensures forall k :: 0 <= k < |ds| && p(ds[k]) ==> ds[k].domain in Names(Filter(ds, p))
    ensures forall x :: x in Names(Filter(ds, p)) ==>
      exists k :: 0 <= k < |ds| && ds[k].domain == x && p(ds[k])
  {
    var f := Filter(ds, p);
    forall k | 0 <= k < |ds| && p(ds[k])
      ensures ds[k].domain in Names(f)
    {
      var j :| 0 <= j < |f| && f[j] == ds[k];
      assert Names(f)[j] == ds[k].domain;
    }
    forall x | x in Names(f)
      ensures exists k :: 0 <= k < |ds| && ds[k].domain == x && p(ds[k])
    {
      var j :| 0 <= j < |f| && Names(f)[j] == x;
      var k :| 0 <= k < |ds| && ds[k] == f[j];
    }
  }

  /** Each list names exactly the domains that pass its test. */
  lemma StatsMembership(domains: seq<DomainData>, now: int, parseDate: string -> Option<int>)
    ensures var s := Stats(domains, now, parseDate);
      (forall k :: 0 <= k < |domains| && IsHttpOnly(domains[k]) ==> domains[k].domain in s.httpOnly) &&
      (forall k :: 0 <= k < |domains| && HasNoCert(domains[k]) ==> domains[k].domain in s.noCert) &&
      (forall k :: 0 <= k < |domains| && IsExpiringSoon(domains[k], now, parseDate) ==>
         domains[k].domain in s.expiringSoon)
    ensures var s := Stats(domains, now, parseDate);
      (forall x :: x in s.httpOnly ==> exists k :: 0 <= k < |domains| && domains[k].domain == x && IsHttpOnly(domains[k])) &&
      (forall x :: x in s.noCert ==> exists k :: 0 <= k < |domains| && domains[k].domain == x && HasNoCert(domains[k])) &&
      (forall x :: x in s.expiringSoon ==>
         exists k :: 0 <= k < |domains| && domains[k].domain == x && IsExpiringSoon(domains[k], now, parseDate))
  {
    FilteredNames(domains, HttpOnlyTest());
    FilteredNames(domains, NoCertTest());
    FilteredNames(domains, ExpiringTest(now, parseDate));
  }

  /** With distinct domain names, no name is both expiring soon and without a certificate. */
  lemma ExpiringAndNoCertDisjoint(domains: seq<DomainData>, now: int, parseDate: string -> Option<int>)
    requires forall i, j :: 0 <= i < |domains| && 0 <= j < |domains| && domains[i].domain == domains[j].domain ==> i == j
    ensures var s := Stats(domains, now, parseDate);
      forall x :: x in s.expiringSoon ==> x !in s.noCert
  {
    StatsMembership(domains, now, parseDate);
  }

  /** The ten records of src/services/mockData.ts. */
  function MockDomains(): seq<DomainData> {
    [ DomainData("academics.iitm.ac.in", Some(Some(200)), Some(Some(200)), Some(Cert(true, Some("2025-06-15")))),
      DomainData("moodle.iitm.ac.in", Some(Some(200)), Some(Some(200)), Some(Cert(true, Some("2025-01-20")))),
      DomainData("library.iitm.ac.in", Some(Some(200)), Some(None), Some(Cert(false, None))),
      DomainData("placement.iitm.ac.in", Some(None), Some(Some(500)), Some(Cert(true, Some("2024-12-31")))),
      DomainData("research.iitm.ac.in", Some(Some(200)), Some(Some(200)), Some(Cert(true, Some("2025-08-10")))),
      DomainData("alumni.iitm.ac.in", Some(Some(200)), Some(Some(200)), Some(Cert(true, Some("2025-01-05")))),
      DomainData("sports.iitm.ac.in", Some(Some(200)), Some(Some(200)), Some(Cert(true, Some("2025-01-15")))),
      DomainData("hostel.iitm.ac.in", Some(Some(404)), Some(Some(404)), Some(Cert(false, None))),
      DomainData("events.iitm.ac.in", Some(Some(200)), Some(None), Some(Cert(false, None))),
      DomainData("portal.iitm.ac.in", Some(Some(200)), Some(Some(200)), Some(Cert(true, Some("2025-03-20")))) ]
  }

  /** A ten-record list in which only records 2 and 8 pass a test filters to those two. */
  lemma PicksTwoAndEight(m: seq<DomainData>, p: DomainData -> bool)
    requires |m| == 10 && p(m[2]) && p(m[8])
    requires forall k :: 0 <= k < 10 && k != 2 && k != 8 ==> !p(m[k])
    ensures Filter(m, p) == [m[2], m[8]]
  {
    assert m == m[..2] + [m[2]] + m[3..];
    FilterAround(m[..2], m[2], m[3..], p);
    assert m[3..] == m[3..8] + [m[8]] + m[9..];
    FilterAround(m[3..8], m[8], m[9..], p);
    FilterDropsAll(m[9..], p);
  }

  /** A ten-record list in which only records 2, 7 and 8 pass a test filters to those three. */
  lemma PicksTwoSevenAndEight(m: seq<DomainData>, p: DomainData -> bool)
    requires |m| == 10 && p(m[2]) && p(m[7]) && p(m[8])
    requires forall k :: 0 <= k < 10 && k != 2 && k != 7 && k != 8 ==> !p(m[k])
    ensures Filter(m, p) == [m[2], m[7], m[8]]
  {
    assert m == m[..2] + [m[2]] + m[3..];
    FilterAround(m[..2], m[2], m[3..], p);
    assert m[3..] == m[3..7] + [m[7]] + m[8..];
    FilterAround(m[3..7], m[7], m[8..], p);
    assert m[8..] == [] + [m[8]] + m[9..];
    FilterAround([], m[8], m[9..], p);
    FilterDropsAll(m[9..], p);
  }

  lemma MockHttpOnlyRecords()
    ensures Filter(MockDomains(), HttpOnlyTest()) == [MockDomains()[2], MockDomains()[8]]
  {
    PicksTwoAndEight(MockDomains(), HttpOnlyTest());
  }

  lemma MockNoCertRecords()
    ensures Filter(MockDomains(), NoCertTest()) == [MockDomains()[2], MockDomains()[7], MockDomains()[8]]
  {
    PicksTwoSevenAndEight(MockDomains(), NoCertTest());
  }

  lemma MockNames()
    ensures Names([MockDomains()[2], MockDomains()[8]]) == ["library.iitm.ac.in", "events.iitm.ac.in"]
    ensures Names([MockDomains()[2], MockDomains()[7], MockDomains()[8]]) ==
      ["library.iitm.ac.in", "hostel.iitm.ac.in", "events.iitm.ac.in"]
  {
  }

  /** The fixture's http-only domains: library and events, whose https entry is null. */
  lemma MockHttpOnly()
    ensures HttpOnlyNames(MockDomains()) == ["library.iitm.ac.in", "events.iitm.ac.in"]
  {
    MockHttpOnlyRecords();
    MockNames();
  }

  /** The fixture's domains without a certificate: library, hostel and events. */
  lemma MockNoCert()
    ensures NoCertNames(MockDomains()) == ["library.iitm.ac.in", "hostel.iitm.ac.in", "events.iitm.ac.in"]
  {
    MockNoCertRecords();
    MockNames();
  }

  /** One card and the modal its button opens. */
  datatype Card = Card(title: string, count: nat, domains: seq<string>, protocol: string, description: string)
  datatype DomainListModal = DomainListModal(domains: seq<string>, title: string, protocol: string)

  /** The three cards, in display order. */
  function Cards(stats: SummaryStats): (cards: seq<Card>)
    ensures |cards| == 3
    ensures forall k :: 0 <= k < 3 ==> cards[k].count == |cards[k].domains|
    ensures cards[0].domains == stats.expiringSoon && cards[0].protocol == "https"
    ensures cards[1].domains == stats.httpOnly && cards[1].protocol == "http"
    ensures cards[2].domains == stats.noCert && cards[2].protocol == "http"
  {
    [ Card("Certificates Expiring Soon", |stats.expiringSoon|, stats.expiringSoon, "https",
           "Certificates expiring within 30 days"),
      Card("HTTP Only", |stats.httpOnly|, stats.httpOnly, "http", "Sites without HTTPS encryption"),
      Card("No Certificate", |stats.noCert|, stats.noCert, "http", "Sites without SSL certificates") ]
  }

  /** The "View Domains" button: present only when the card lists at least one domain; its
      click asks for the modal with the card's own list, title and protocol. */
  function ViewDomains(card: Card): (r: Option<DomainListModal>)
    ensures r.Some? <==> card.count > 0
    ensures r.Some? ==> r.value == DomainListModal(card.domains, card.title, card.protocol)
  {
    if card.count > 0 then Some(DomainListModal(card.domains, card.title, card.protocol)) else None
  }

  /** Each card offers its list exactly when that list is non-empty; otherwise it reads "All Clear". */
  lemma CardButtons(stats: SummaryStats)
    ensures var cards := Cards(stats);
      (ViewDomains(cards[0]).Some? <==> stats.expiringSoon != []) &&
      (ViewDomains(cards[1]).Some? <==> stats.httpOnly != []) &&
      (ViewDomains(cards[2]).Some? <==> stats.noCert != [])
  {
    var cards := Cards(stats);
    assert cards[0].count == |stats.expiringSoon|;
  }

  /** On the fixture the http-only and no-certificate cards show their button. */
  lemma MockFixtureButtons(now: int, parseDate: string -> Option<int>)
    ensures var cards := Cards(Stats(MockDomains(), now, parseDate));
      ViewDomains(cards[1]).Some? && ViewDomains(cards[1]).value.domains == ["library.iitm.ac.in", "events.iitm.ac.in"] &&
      ViewDomains(cards[2]).Some?
  {
    MockHttpOnly();
    MockNoCert();
  }
}
