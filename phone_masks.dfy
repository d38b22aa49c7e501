/**
 * The country table and the phone helpers built on it
 * (src/utils/phoneMasks.ts): the table of codes, dial codes and input masks,
 * the detection of a country from a number's dial-code prefix, the digit-count
 * check against a mask, and the dial-code prefixing of a number.
 */
module PhoneMasks {
  import opened Types
  import opened Text
  import Validation

  /** `CountryData`; the flag emoji is not modelled. */
  datatype CountryData = CountryData(code: string, name: string, mask: string, dialCode: string)

  // North America
  const US: CountryData := CountryData("US", "United States", "+1 (999) 999-9999", "+1")
  const CA: CountryData := CountryData("CA", "Canada", "+1 (999) 999-9999", "+1")
  const MX: CountryData := CountryData("MX", "Mexico", "+52 999 999 9999", "+52")
  const NorthAmerica: seq<(string, CountryData)> :=
    [("US", US), ("CA", CA), ("MX", MX)]

  // South America
  const BR: CountryData := CountryData("BR", "Brazil", "+55 (99) 99999-9999", "+55")
  const AR: CountryData := CountryData("AR", "Argentina", "+54 9 9999 9999", "+54")
  const CL: CountryData := CountryData("CL", "Chile", "+56 9 9999 9999", "+56")
  const CO: CountryData := CountryData("CO", "Colombia", "+57 999 999 9999", "+57")
  const PE: CountryData := CountryData("PE", "Peru", "+51 999 999 999", "+51")
  const UY: CountryData := CountryData("UY", "Uruguay", "+598 99 999 999", "+598")
  const VE: CountryData := CountryData("VE", "Venezuela", "+58 999 999 9999", "+58")
  const EC: CountryData := CountryData("EC", "Ecuador", "+593 99 999 9999", "+593")
  const SouthAmerica: seq<(string, CountryData)> :=
    [("BR", BR), ("AR", AR), ("CL", CL), ("CO", CO), ("PE", PE), ("UY", UY), ("VE", VE), ("EC", EC)]

  // Europe
  const GB: CountryData := CountryData("GB", "United Kingdom", "+44 9999 999999", "+44")
  const FR: CountryData := CountryData("FR", "France", "+33 9 99 99 99 99", "+33")
  const DE: CountryData := CountryData("DE", "Germany", "+49 999 99999999", "+49")
  const ES: CountryData := CountryData("ES", "Spain", "+34 999 999 999", "+34")
  const IT: CountryData := CountryData("IT", "Italy", "+39 999 999 9999", "+39")
  const PT: CountryData := CountryData("PT", "Portugal", "+351 999 999 999", "+351")
  const NL: CountryData := CountryData("NL", "Netherlands", "+31 9 9999 9999", "+31")
  const BE: CountryData := CountryData("BE", "Belgium", "+32 999 99 99 99", "+32")
  const CH: CountryData := CountryData("CH", "Switzerland", "+41 99 999 99 99", "+41")
  const AT: CountryData := CountryData("AT", "Austria", "+43 999 999 9999", "+43")
  const SE: CountryData := CountryData("SE", "Sweden", "+46 99 999 99 99", "+46")
  const NO: CountryData := CountryData("NO", "Norway", "+47 999 99 999", "+47")
  const DK: CountryData := CountryData("DK", "Denmark", "+45 99 99 99 99", "+45")
  const FI: CountryData := CountryData("FI", "Finland", "+358 99 999 9999", "+358")
  const PL: CountryData := CountryData("PL", "Poland", "+48 999 999 999", "+48")
  const CZ: CountryData := CountryData("CZ", "Czech Republic", "+420 999 999 999", "+420")
  const RU: CountryData := CountryData("RU", "Russia", "+7 999 999 99 99", "+7")
  const Europe: seq<(string, CountryData)> :=
    [("GB", GB), ("FR", FR), ("DE", DE), ("ES", ES), ("IT", IT), ("PT", PT), ("NL", NL), ("BE", BE), ("CH", CH), ("AT", AT), ("SE", SE), ("NO", NO), ("DK", DK), ("FI", FI), ("PL", PL), ("CZ", CZ), ("RU", RU)]

  // Asia
  const CN: CountryData := CountryData("CN", "China", "+86 999 9999 9999", "+86")
  const IN: CountryData := CountryData("IN", "India", "+91 99999 99999", "+91")
  const JP: CountryData := CountryData("JP", "Japan", "+81 99 9999 9999", "+81")
  const KR: CountryData := CountryData("KR", "South Korea", "+82 99 9999 9999", "+82")
  const SG: CountryData := CountryData("SG", "Singapore", "+65 9999 9999", "+65")
  const MY: CountryData := CountryData("MY", "Malaysia", "+60 99 999 9999", "+60")
  const TH: CountryData := CountryData("TH", "Thailand", "+66 99 999 9999", "+66")
  const VN: CountryData := CountryData("VN", "Vietnam", "+84 999 999 999", "+84")
  const PH: CountryData := CountryData("PH", "Philippines", "+63 999 999 9999", "+63")
  const ID: CountryData := CountryData("ID", "Indonesia", "+62 999 9999 9999", "+62")
  const Asia: seq<(string, CountryData)> :=
    [("CN", CN), ("IN", IN), ("JP", JP), ("KR", KR), ("SG", SG), ("MY", MY), ("TH", TH), ("VN", VN), ("PH", PH), ("ID", ID)]

  // Oceania
  const AU: CountryData := CountryData("AU", "Australia", "+61 9 9999 9999", "+61")
  const NZ: CountryData := CountryData("NZ", "New Zealand", "+64 99 999 9999", "+64")
  const Oceania: seq<(string, CountryData)> :=
    [("AU", AU), ("NZ", NZ)]

  // Africa
  const ZA: CountryData := CountryData("ZA", "South Africa", "+27 99 999 9999", "+27")
  const NG: CountryData := CountryData("NG", "Nigeria", "+234 999 999 9999", "+234")
  const EG: CountryData := CountryData("EG", "Egypt", "+20 999 999 9999", "+20")
  const Africa: seq<(string, CountryData)> :=
    [("ZA", ZA), ("NG", NG), ("EG", EG)]

  // Middle East
  const AE: CountryData := CountryData("AE", "United Arab Emirates", "+971 99 999 9999", "+971")
  const SA: CountryData := CountryData("SA", "Saudi Arabia", "+966 99 999 9999", "+966")
  const IL: CountryData := CountryData("IL", "Israel", "+972 99 999 9999", "+972")
  const TR: CountryData := CountryData("TR", "Turkey", "+90 999 999 99 99", "+90")
  const MiddleEast: seq<(string, CountryData)> :=
    [("AE", AE), ("SA", SA), ("IL", IL), ("TR", TR)]

  /** `COUNTRY_DATA`: the table's keys and entries, in the order they are written. */
  const COUNTRY_DATA: seq<(string, CountryData)> :=
    NorthAmerica + SouthAmerica + Europe + Asia + Oceania + Africa + MiddleEast

  /** `DEFAULT_COUNTRY` */
  const DEFAULT_COUNTRY: string := "US"

  /** The first two digits of the table's four-character dial codes. */
  const LongCodeStems: set<(char, char)> :=
    {('2', '3'), ('3', '5'), ('4', '2'), ('5', '9'), ('9', '6'), ('9', '7')}

  /** In the mask, every digit after the dial code is the placeholder `9`. */
  predicate DigitSlotsAreNines(c: CountryData) {
    forall i :: |c.dialCode| <= i < |c.mask| && IsDigit(c.mask[i]) ==> c.mask[i] == '9'
  }

  /**
   * What every entry of the table satisfies: a dial code of `+` and one to
   * three digits, not all of them `9`; a mask that opens with the dial code
   * and a space and whose other digits are placeholders; and the shapes of
   * dial code that keep any two different codes from being prefixes of one
   * another (the only two-character codes are `+1` and `+7`, and the
   * three-character stems of the four-character codes are not codes).
   */
  predicate CountryFacts(c: CountryData) {
    var d := c.dialCode;
    && 2 <= |d| <= 4
    && d[0] == '+'
    && (forall i :: 1 <= i < |d| ==> IsDigit(d[i]))
    && (d[1] != '9' || (|d| > 2 && d[2] != '9'))
    && (|d| == 2 <==> d[1] == '1' || d[1] == '7')
    && (|d| > 2 ==> (|d| == 4 <==> (d[1], d[2]) in LongCodeStems))
    && StartsWith(c.mask, d + " ")
    && DigitSlotsAreNines(c)
  }

  /** An entry is filed under its own code. */
  predicate EntryFacts(e: (string, CountryData)) {
    e.0 == e.1.code && CountryFacts(e.1)
  }

  // The facts are established a pair of entries at a time, which keeps each
  // proof obligation small; Dafny checks each pair by evaluating the literals.

  lemma USCAFacts()
    ensures CountryFacts(US) && CountryFacts(CA)
  {
  }

  lemma MXFacts()
    ensures CountryFacts(MX)
  {
  }

  lemma NorthAmericaFacts()
    ensures forall k :: 0 <= k < |NorthAmerica| ==> EntryFacts(NorthAmerica[k])
  {
    USCAFacts();
    MXFacts();
    forall k | 0 <= k < |NorthAmerica|
      ensures EntryFacts(NorthAmerica[k])
    {
      assert k == 0 || k == 1 || k == 2;
    }
  }

  lemma BRARFacts()
    ensures CountryFacts(BR) && CountryFacts(AR)
  {
  }

  lemma CLCOFacts()
    ensures CountryFacts(CL) && CountryFacts(CO)
  {
  }

  lemma PEUYFacts()
    ensures CountryFacts(PE) && CountryFacts(UY)
  {
  }

  lemma VEECFacts()
    ensures CountryFacts(VE) && CountryFacts(EC)
  {
  }

  lemma SouthAmericaFacts()
    ensures forall k :: 0 <= k < |SouthAmerica| ==> EntryFacts(SouthAmerica[k])
  {
    BRARFacts();
    CLCOFacts();
    PEUYFacts();
    VEECFacts();
    forall k | 0 <= k < |SouthAmerica|
      ensures EntryFacts(SouthAmerica[k])
    {
      assert k == 0 || k == 1 || k == 2 || k == 3 || k == 4 || k == 5 || k == 6 || k == 7;
    }
  }

  lemma GBFRFacts()
    ensures CountryFacts(GB) && CountryFacts(FR)
  {
  }

  lemma DEESFacts()
    ensures CountryFacts(DE) && CountryFacts(ES)
  {
  }

  lemma ITPTFacts()
    ensures CountryFacts(IT) && CountryFacts(PT)
  {
  }

  lemma NLBEFacts()
    ensures CountryFacts(NL) && CountryFacts(BE)
  {
  }

  lemma CHATFacts()
    ensures CountryFacts(CH) && CountryFacts(AT)
  {
  }

  lemma SENOFacts()
    ensures CountryFacts(SE) && CountryFacts(NO)
  {
  }

  lemma DKFIFacts()
    ensures CountryFacts(DK) && CountryFacts(FI)
  {
  }

  lemma PLCZFacts()
    ensures CountryFacts(PL) && CountryFacts(CZ)
  {
  }

  lemma RUFacts()
    ensures CountryFacts(RU)
  {
  }

  lemma EuropeFacts()
    ensures forall k :: 0 <= k < |Europe| ==> EntryFacts(Europe[k])
  {
    GBFRFacts();
    DEESFacts();
    ITPTFacts();
    NLBEFacts();
    CHATFacts();
    SENOFacts();
    DKFIFacts();
    PLCZFacts();
    RUFacts();
    forall k | 0 <= k < |Europe|
      ensures EntryFacts(Europe[k])
    {
      assert k == 0 || k == 1 || k == 2 || k == 3 || k == 4 || k == 5 || k == 6 || k == 7 || k == 8 || k == 9 || k == 10 || k == 11 || k == 12 || k == 13 || k == 14 || k == 15 || k == 16;
    }
  }

  lemma CNINFacts()
    ensures CountryFacts(CN) && CountryFacts(IN)
  {
  }

  lemma JPKRFacts()
    ensures CountryFacts(JP) && CountryFacts(KR)
  {
  }

  lemma SGMYFacts()
    ensures CountryFacts(SG) && CountryFacts(MY)
  {
  }

  lemma THVNFacts()
    ensures CountryFacts(TH) && CountryFacts(VN)
  {
  }

  lemma PHIDFacts()
    ensures CountryFacts(PH) && CountryFacts(ID)
  {
  }

  lemma AsiaFacts()
    ensures forall k :: 0 <= k < |Asia| ==> EntryFacts(Asia[k])
  {
    CNINFacts();
    JPKRFacts();
    SGMYFacts();
    THVNFacts();
    PHIDFacts();
    forall k | 0 <= k < |Asia|
      ensures EntryFacts(Asia[k])
    {
      assert k == 0 || k == 1 || k == 2 || k == 3 || k == 4 || k == 5 || k == 6 || k == 7 || k == 8 || k == 9;
    }
  }

  lemma AUNZFacts()
    ensures CountryFacts(AU) && CountryFacts(NZ)
  {
  }

  lemma OceaniaFacts()
    ensures forall k :: 0 <= k < |Oceania| ==> EntryFacts(Oceania[k])
  {
    AUNZFacts();
    forall k | 0 <= k < |Oceania|
      ensures EntryFacts(Oceania[k])
    {
      assert k == 0 || k == 1;
    }
  }

  lemma ZANGFacts()
    ensures CountryFacts(ZA) && CountryFacts(NG)
  {
  }

  lemma EGFacts()
    ensures CountryFacts(EG)
  {
  }

  lemma AfricaFacts()
    ensures forall k :: 0 <= k < |Africa| ==> EntryFacts(Africa[k])
  {
    ZANGFacts();
    EGFacts();
    forall k | 0 <= k < |Africa|
      ensures EntryFacts(Africa[k])
    {
      assert k == 0 || k == 1 || k == 2;
    }
  }

  lemma AESAFacts()
    ensures CountryFacts(AE) && CountryFacts(SA)
  {
  }

  lemma ILTRFacts()
    ensures CountryFacts(IL) && CountryFacts(TR)
  {
  }

  lemma MiddleEastFacts()
    ensures forall k :: 0 <= k < |MiddleEast| ==> EntryFacts(MiddleEast[k])
  {
    AESAFacts();
    ILTRFacts();
    forall k | 0 <= k < |MiddleEast|
      ensures EntryFacts(MiddleEast[k])
    {
      assert k == 0 || k == 1 || k == 2 || k == 3;
    }
  }

  lemma TableFacts()
    ensures forall k :: 0 <= k < |COUNTRY_DATA| ==> EntryFacts(COUNTRY_DATA[k])
  {
    NorthAmericaFacts();
    SouthAmericaFacts();
    EuropeFacts();
    AsiaFacts();
    OceaniaFacts();
    AfricaFacts();
    MiddleEastFacts();
    var t1 := NorthAmerica + SouthAmerica;
    var t2 := t1 + Europe;
    var t3 := t2 + Asia;
    var t4 := t3 + Oceania;
    var t5 := t4 + Africa;
    assert forall k :: 0 <= k < |t1| ==> EntryFacts(t1[k]);
    assert forall k :: 0 <= k < |t2| ==> EntryFacts(t2[k]);
    assert forall k :: 0 <= k < |t3| ==> EntryFacts(t3[k]);
    assert forall k :: 0 <= k < |t4| ==> EntryFacts(t4[k]);
    assert forall k :: 0 <= k < |t5| ==> EntryFacts(t5[k]);
  }

  /* ---------------------------------------------------------------------- */
  /* Looking a country up by its key                                        */
  /* ---------------------------------------------------------------------- */

  /** The entry filed under `key` in `t`, the first one if several are. */
  function LookupIn(t: seq<(string, CountryData)>, key: string): (r: Option<CountryData>)
    ensures r.None? <==> forall i :: 0 <= i < |t| ==> t[i].0 != key
    ensures r.Some? ==> exists i :: 0 <= i < |t| && t[i] == (key, r.value)
  {
    if t == [] then None
    else if t[0].0 == key then Some(t[0].1)
    else
      var r := LookupIn(t[1..], key);
      assert r.Some? ==> exists i :: 1 <= i < |t| && t[i] == (key, r.value) by {
        if r.Some? {
          var i :| 0 <= i < |t[1..]| && t[1..][i] == (key, r.value);
          assert t[i + 1] == (key, r.value);
        }
      }
      r
  }

  /**
   * `countryCode ? COUNTRY_DATA[countryCode] : null`: no country for an absent
   * or empty code or for a code that is not a key of the table; otherwise the
   * entry filed under it, whose own code is that key.
   */
  function CountryFor(countryCode: Option<string>): (r: Option<CountryData>)
    ensures r.None? <==>
      countryCode.None? || countryCode.value == "" ||
      forall i :: 0 <= i < |COUNTRY_DATA| ==> COUNTRY_DATA[i].0 != countryCode.value
    ensures r.Some? ==> (countryCode.value, r.value) in COUNTRY_DATA
    ensures r.Some? ==> r.value.code == countryCode.value && CountryFacts(r.value)
  {
    TableFacts();
    if countryCode.None? || countryCode.value == "" then None
    else LookupIn(COUNTRY_DATA, countryCode.value)
  }

  /* ---------------------------------------------------------------------- */
  /* Detecting the country of a number                                      */
  /* ---------------------------------------------------------------------- */

  type Table = seq<(string, CountryData)>

  /** `phone.startsWith(country.dialCode)` for the entry at `k`. */
  predicate Matches(t: Table, k: nat, phone: string) {
    k < |t| && StartsWith(phone, t[k].1.dialCode)
  }

  function DialLength(t: Table, k: nat): nat {
    if k < |t| then |t[k].1.dialCode| else 0
  }

  /**
   * Whether a stable sort with the comparator
   * `(a, b) => b.dialCode.length - a.dialCode.length` puts the entry at `a`
   * no later than the entry at `b`: longer dial codes first, and table order
   * among dial codes of one length.
   */
  predicate Precedes(t: Table, a: nat, b: nat) {
    DialLength(t, a) > DialLength(t, b) || (DialLength(t, a) == DialLength(t, b) && a <= b)
  }

  predicate SortedByDialLength(t: Table, s: seq<nat>) {
    forall i, j {:trigger Precedes(t, s[i], s[j])} :: 0 <= i < j < |s| ==> Precedes(t, s[i], s[j])
  }

  /** Places `x` into the sorted `s`. */
  function Insert(t: Table, x: nat, s: seq<nat>): (r: seq<nat>)
    requires SortedByDialLength(t, s)
    ensures SortedByDialLength(t, r)
    ensures multiset(r) == multiset(s) + multiset{x}
  {
    if s == [] then [x]
    else if Precedes(t, x, s[0]) then InsertAtHead(t, x, s); [x] + s
    else
      var rest := Insert(t, x, s[1..]);
      InsertBehindHead(t, x, s, rest);
      [s[0]] + rest
  }

  /** What goes before the head of a sorted sequence goes before all of it. */
  lemma InsertAtHead(t: Table, x: nat, s: seq<nat>)
    requires SortedByDialLength(t, s) && s != [] && Precedes(t, x, s[0])
    ensures SortedByDialLength(t, [x] + s)
  {
    var r := [x] + s;
    forall i, j | 0 <= i < j < |r|
      ensures Precedes(t, r[i], r[j])
    {
      if i == 0 && j > 1 {
        assert Precedes(t, s[0], s[j - 1]);
      } else if i > 0 {
        assert Precedes(t, s[i - 1], s[j - 1]);
      }
    }
  }

  /** When `x` does not go before `s[0]`, `s[0]` goes before everything `x` is inserted among. */
  lemma InsertBehindHead(t: Table, x: nat, s: seq<nat>, rest: seq<nat>)
    requires SortedByDialLength(t, s) && s != [] && !Precedes(t, x, s[0])
    requires SortedByDialLength(t, rest) && multiset(rest) == multiset(s[1..]) + multiset{x}
    ensures SortedByDialLength(t, [s[0]] + rest)
    ensures multiset([s[0]] + rest) == multiset(s) + multiset{x}
  {
    assert s == [s[0]] + s[1..];
    forall j | 0 <= j < |rest|
      ensures Precedes(t, s[0], rest[j])
    {
      assert rest[j] in multiset(rest);
      if rest[j] != x {
        assert rest[j] in multiset(s[1..]);
        var k :| 0 <= k < |s[1..]| && s[1..][k] == rest[j];
        assert s[k + 1] == rest[j];
      }
    }
  }

  /** `Array.prototype.sort` with that comparator: the one sorted permutation of `s`. */
  function SortByDialLength(t: Table, s: seq<nat>): (r: seq<nat>)
    ensures SortedByDialLength(t, r)
    ensures multiset(r) == multiset(s)
  {
    if s == [] then []
    else
      assert s == [s[0]] + s[1..];
      Insert(t, s[0], SortByDialLength(t, s[1..]))
  }

  /** `Object.values(t)`, as the positions of the entries. */
  function Positions(t: Table): (r: seq<nat>)
    ensures |r| == |t|
    ensures forall k :: 0 <= k < |r| ==> r[k] == k
  {
    seq(|t|, k requires 0 <= k < |t| => k)
  }

  /**
   * The reference answer: the first entry of `t`, in table order, whose dial
   * code starts `phone`, looking from position `k` on.
   */
  function FirstMatchFrom(t: Table, phone: string, k: nat): (r: Option<nat>)
    requires k <= |t|
    ensures r.Some? ==> k <= r.value && Matches(t, r.value, phone)
    ensures r.Some? ==> forall q :: k <= q < r.value ==> !Matches(t, q, phone)
    ensures r.None? ==> forall q :: k <= q ==> !Matches(t, q, phone)
    decreases |t| - k
  {
    if k == |t| then None
    else if Matches(t, k, phone) then Some(k)
    else FirstMatchFrom(t, phone, k + 1)
  }

  /** The country a number is expected to be detected as in `t`. */
  function ExpectedCountryIn(t: Table, phone: string): string {
    if !StartsWith(phone, "+") then DEFAULT_COUNTRY
    else match FirstMatchFrom(t, phone, 0)
      case None => DEFAULT_COUNTRY
      case Some(k) => t[k].1.code
  }

  /** The country a number is expected to be detected as: the first table entry whose dial code starts it. */
  function ExpectedCountry(phone: string): string {
    ExpectedCountryIn(COUNTRY_DATA, phone)
  }

  /** No dial code of `t` is a proper prefix of another. */
  predicate PrefixFree(t: Table) {
    forall p, q :: 0 <= p < |t| && 0 <= q < |t| && StartsWith(t[q].1.dialCode, t[p].1.dialCode) ==>
      t[p].1.dialCode == t[q].1.dialCode
  }

  /** Two dial codes that both start one number are the same code in a prefix-free table. */
  lemma MatchesAgree(t: Table, p: nat, q: nat, phone: string)
    requires PrefixFree(t) && Matches(t, p, phone) && Matches(t, q, phone)
    ensures t[p].1.dialCode == t[q].1.dialCode
  {
    var a, b := t[p].1.dialCode, t[q].1.dialCode;
    assert a == phone[..|a|] && b == phone[..|b|];
    assert |a| <= |b| ==> b[..|a|] == a;
    assert |b| <= |a| ==> a[..|b|] == b;
  }

  /** The table is prefix-free: its only two-character codes are `+1` and `+7`, and the stems of its four-character codes are not codes. */
  lemma TablePrefixFree()
    ensures PrefixFree(COUNTRY_DATA)
  {
    TableFacts();
    forall p, q | 0 <= p < |COUNTRY_DATA| && 0 <= q < |COUNTRY_DATA| &&
      StartsWith(COUNTRY_DATA[q].1.dialCode, COUNTRY_DATA[p].1.dialCode)
      ensures COUNTRY_DATA[p].1.dialCode == COUNTRY_DATA[q].1.dialCode
    {
      assert EntryFacts(COUNTRY_DATA[p]) && EntryFacts(COUNTRY_DATA[q]);
      var a, b := COUNTRY_DATA[p].1.dialCode, COUNTRY_DATA[q].1.dialCode;
      assert a[1] == b[1] && (|a| > 2 ==> a[2] == b[2]);
    }
  }

  /**
   * In the sorted table, the first entry whose dial code starts `phone` is
   * the first such entry in table order: no code is a prefix of another, and
   * the sort keeps the table order among equal codes.
   */
  lemma SortedMatchIsFirstMatch(t: Table, s: seq<nat>, i: nat, phone: string)
    requires PrefixFree(t)
    requires SortedByDialLength(t, s) && multiset(s) == multiset(Positions(t))
    requires i < |s| && Matches(t, s[i], phone)
    requires forall j :: 0 <= j < i ==> !Matches(t, s[j], phone)
    ensures FirstMatchFrom(t, phone, 0) == Some(s[i])
    ensures StartsWith(phone, "+") ==> ExpectedCountryIn(t, phone) == t[s[i]].1.code
  {
    var p := FirstMatchFrom(t, phone, 0).value;
    assert p <= s[i];
    MatchesAgree(t, p, s[i], phone);
    assert Positions(t)[p] == p;
    assert p in multiset(s);
    var j :| 0 <= j < |s| && s[j] == p;
    if j != i {
      assert i < j;
      assert Precedes(t, s[i], s[j]);
    }
  }

  /** If no entry of the sorted table matches, no entry of the table does. */
  lemma NoSortedMatchNoMatch(t: Table, s: seq<nat>, phone: string)
    requires multiset(s) == multiset(Positions(t))
    requires forall j :: 0 <= j < |s| ==> !Matches(t, s[j], phone)
    ensures FirstMatchFrom(t, phone, 0).None?
    ensures ExpectedCountryIn(t, phone) == DEFAULT_COUNTRY
  {
    forall q | 0 <= q < |t|
      ensures !Matches(t, q, phone)
    {
      assert Positions(t)[q] == q;
      assert q in multiset(s);
    }
  }

  /**
   * The loop of `detectCountryFromPhone` over a table: the code of the first
   * country, with the longest dial codes tried first, whose dial code starts
   * the number, and `DEFAULT_COUNTRY` if none does.
   */
  method DetectCountryIn(t: Table, phone: string) returns (code: string)
    requires PrefixFree(t)
    requires StartsWith(phone, "+")
    ensures code == ExpectedCountryIn(t, phone)
  {
    var sortedCountries := SortByDialLength(t, Positions(t));
    var i := 0;
    while i < |sortedCountries|
      invariant 0 <= i <= |sortedCountries|
      invariant forall j :: 0 <= j < i ==> !Matches(t, sortedCountries[j], phone)
    {
      var k := sortedCountries[i];
      if Matches(t, k, phone) {
        SortedMatchIsFirstMatch(t, sortedCountries, i, phone);
        return t[k].1.code;
      }
      i := i + 1;
    }
    NoSortedMatchNoMatch(t, sortedCountries, phone);
    return DEFAULT_COUNTRY;
  }

  /**
   * `detectCountryFromPhone`: `DEFAULT_COUNTRY` for a number that does not
   * start with `+`; otherwise the search of the table above, which comes to
   * the first table entry whose dial code starts the number.
   */
  method DetectCountryFromPhone(phone: string) returns (code: string)
    ensures code == ExpectedCountry(phone)
  {
    if phone == "" || !StartsWith(phone, "+") {
      return DEFAULT_COUNTRY;
    }
    TablePrefixFree();
    code := DetectCountryIn(COUNTRY_DATA, phone);
  }

  /** A number that starts with a country's dial code is detected as a country with that dial code. */
  lemma DetectedDialCodeStartsNumber(phone: string, k: nat)
    requires Matches(COUNTRY_DATA, k, phone)
    ensures FirstMatchFrom(COUNTRY_DATA, phone, 0).Some?
    ensures var f := FirstMatchFrom(COUNTRY_DATA, phone, 0).value;
      && COUNTRY_DATA[f].1.dialCode == COUNTRY_DATA[k].1.dialCode
      && ExpectedCountry(phone) == COUNTRY_DATA[f].1.code
  {
    TablePrefixFree();
    TableFacts();
    assert EntryFacts(COUNTRY_DATA[k]);
    assert phone[0] == '+';
    MatchesAgree(COUNTRY_DATA, FirstMatchFrom(COUNTRY_DATA, phone, 0).value, k, phone);
  }

  /** Every `+1` number, Canadian ones included, is detected as the United States. */
  lemma PlusOneIsUnitedStates(phone: string)
    requires StartsWith(phone, "+1")
    ensures ExpectedCountry(phone) == "US"
  {
    assert COUNTRY_DATA[0] == ("US", US);
    assert Matches(COUNTRY_DATA, 0, phone);
  }

  /* ---------------------------------------------------------------------- */
  /* Validating a number                                                    */
  /* ---------------------------------------------------------------------- */

  /** `validatePhoneNumber(phone, countryCode)`, as written. */
  function ValidatePhoneNumber(phone: string, countryCode: Option<string>): (valid: bool)
    ensures valid ==> phone != ""
  {
    if phone == "" then false
    else match CountryFor(countryCode)
      case None => 10 <= DigitCount(phone) <= 15
      case Some(country) => FitsCountry(phone, country)
  }

  /** The known-country check as written: every digit of the number against the mask's `9`s. */
  predicate FitsCountry(phone: string, country: CountryData) {
    StartsWith(phone, country.dialCode) &&
    DigitCount(phone) == CountChar(country.mask, '9')
  }

  /**
   * `validatePhoneNumber` as its comments intend: the digits after the dial
   * code are counted against the placeholders after it.
   */
  function ValidatePhoneNumberIntended(phone: string, countryCode: Option<string>): (valid: bool)
    ensures valid ==> phone != ""
  {
    if phone == "" then false
    else match CountryFor(countryCode)
      case None => 10 <= DigitCount(phone) <= 15
      case Some(country) => FitsCountryIntended(phone, country)
  }

  /** The known-country check as intended: the digits after the dial code against the `9`s after it. */
  predicate FitsCountryIntended(phone: string, country: CountryData)
    requires CountryFacts(country)
  {
    var n := |country.dialCode|;
    StartsWith(phone, country.dialCode) &&
    DigitCount(phone[n..]) == CountChar(country.mask[n..], '9')
  }

  /** Without a known country both checks are the ten-to-fifteen-digit rule of the form validator. */
  lemma UnknownCountryUsesGenericRule(phone: string, countryCode: Option<string>)
    requires phone != "" && CountryFor(countryCode).None?
    ensures ValidatePhoneNumber(phone, countryCode) == Validation.ValidatePhone(phone).isValid
    ensures ValidatePhoneNumberIntended(phone, countryCode) == ValidatePhoneNumber(phone, countryCode)
  {
    Validation.PhoneVerdict(phone);
  }

  /**
   * For a table entry: as written, a number is accepted exactly when it
   * starts with the dial code and its digits after the dial code, plus the
   * dial code's digits, make up the mask's placeholders plus the `9`s of the
   * dial code; as intended, exactly when it starts with the dial code and its
   * digits after it fill the mask's placeholders.
   */
  lemma CountryRuleVerdict(phone: string, country: CountryData)
    requires CountryFacts(country)
    ensures FitsCountry(phone, country) <==>
      StartsWith(phone, country.dialCode) &&
      DigitCount(phone[|country.dialCode|..]) + DigitCount(country.dialCode) ==
        DigitCount(country.mask[|country.dialCode|..]) + CountChar(country.dialCode, '9')
    ensures FitsCountryIntended(phone, country) <==>
      StartsWith(phone, country.dialCode) &&
      DigitCount(phone[|country.dialCode|..]) == DigitCount(country.mask[|country.dialCode|..])
  {
    MaskNines(country);
    if StartsWith(phone, country.dialCode) {
      PrefixDigits(phone, country.dialCode);
    }
  }

  /** The `9`s of a table mask are those of its dial code and one per placeholder after it. */
  lemma MaskNines(country: CountryData)
    requires CountryFacts(country)
    ensures |country.dialCode| <= |country.mask|
    ensures CountChar(country.mask, '9') ==
      CountChar(country.dialCode, '9') + DigitCount(country.mask[|country.dialCode|..])
    ensures CountChar(country.mask[|country.dialCode|..], '9') == DigitCount(country.mask[|country.dialCode|..])
  {
    MaskHasSpareDigit(country);
    CountCharConcat(country.dialCode, country.mask[|country.dialCode|..], '9');
  }

  /** The digits of a number that starts with `d` are those of `d` and those after it. */
  lemma PrefixDigits(phone: string, d: string)
    requires StartsWith(phone, d)
    ensures DigitCount(phone) == DigitCount(d) + DigitCount(phone[|d|..])
  {
    assert phone == d + phone[|d|..] by {
      assert phone[..|d|] == d;
    }
    DigitsOnlyConcat(d, phone[|d|..]);
  }

  /** With a known country, both checks are the rule of that country's entry. */
  lemma KnownCountryVerdict(phone: string, key: string)
    requires phone != "" && CountryFor(Some(key)).Some?
    ensures ValidatePhoneNumber(phone, Some(key)) == FitsCountry(phone, CountryFor(Some(key)).value)
    ensures ValidatePhoneNumberIntended(phone, Some(key)) == FitsCountryIntended(phone, CountryFor(Some(key)).value)
    ensures CountryFacts(CountryFor(Some(key)).value)
  {
  }

  /** `US` is filed under its own key, first in the table. */
  lemma UnitedStatesEntry()
    ensures CountryFor(Some("US")) == Some(US) && CountryFacts(US)
  {
    assert COUNTRY_DATA[0] == ("US", US);
  }

  /** The `US` dial code `+1` has one digit, which is not a `9`. */
  lemma UnitedStatesDialCodeDigits()
    ensures US.dialCode == "+1" && DigitCount("+1") == 1 && CountChar("+1", '9') == 0
  {
    assert DigitsOnly("+1") == "1" by {
      assert "+1"[1..] == "1";
      DigitsOnlyChar('1');
    }
  }

  /**
   * For `US`, a number starting with `+1` is accepted as written exactly when
   * it has one digit fewer after `+1` than the mask has, and as intended
   * exactly when it has as many.
   */
  lemma UnitedStatesVerdict(phone: string)
    requires StartsWith(phone, "+1")
    ensures ValidatePhoneNumber(phone, Some("US")) <==> DigitCount(phone[2..]) + 1 == DigitCount(US.mask[2..])
    ensures ValidatePhoneNumberIntended(phone, Some("US")) <==> DigitCount(phone[2..]) == DigitCount(US.mask[2..])
  {
    UnitedStatesEntry();
    KnownCountryVerdict(phone, "US");
    UnitedStatesDialCodeDigits();
    CountryRuleVerdict(phone, US);
  }

  /** `phone` is typed in the shape of `mask`: a digit for each `9`, every other character as is. */
  predicate FitsMask(phone: string, mask: string) {
    |phone| == |mask| &&
    forall i :: 0 <= i < |mask| ==> if mask[i] == '9' then IsDigit(phone[i]) else phone[i] == mask[i]
  }

  lemma {:induction false} FitsMaskSuffix(phone: string, mask: string, n: nat)
    requires FitsMask(phone, mask) && n <= |mask|
    ensures FitsMask(phone[n..], mask[n..])
  {
    forall i | 0 <= i < |mask[n..]|
      ensures if mask[n..][i] == '9' then IsDigit(phone[n..][i]) else phone[n..][i] == mask[n..][i]
    {
      assert mask[n..][i] == mask[n + i] && phone[n..][i] == phone[n + i];
    }
  }

  /** A number in the shape of a mask has as many digits as the mask. */
  lemma {:induction false} FitsMaskDigitCount(phone: string, mask: string)
    requires FitsMask(phone, mask)
    ensures DigitCount(phone) == DigitCount(mask)
  {
    if mask != [] {
      FitsMaskSuffix(phone, mask, 1);
      FitsMaskDigitCount(phone[1..], mask[1..]);
      assert mask[0] == '9' ==> IsDigit(phone[0]);
    }
  }

  /** A string never has more `9`s than digits. */
  lemma {:induction false} NinesAtMostDigits(s: string)
    ensures CountChar(s, '9') <= DigitCount(s)
  {
    if s != [] {
      NinesAtMostDigits(s[1..]);
    }
  }

  /** A string with a digit other than `9` has fewer `9`s than digits. */
  lemma {:induction false} NinesBelowDigits(s: string, k: nat)
    requires k < |s| && IsDigit(s[k]) && s[k] != '9'
    ensures CountChar(s, '9') < DigitCount(s)
  {
    if k == 0 {
      NinesAtMostDigits(s[1..]);
    } else {
      NinesBelowDigits(s[1..], k - 1);
    }
  }

  /** A string whose only digits are `9`s has as many `9`s as digits. */
  lemma {:induction false} OnlyNinesCount(s: string)
    requires forall i :: 0 <= i < |s| && IsDigit(s[i]) ==> s[i] == '9'
    ensures CountChar(s, '9') == DigitCount(s)
  {
    if s != [] {
      assert forall i :: 0 <= i < |s[1..]| ==> s[1..][i] == s[i + 1];
      OnlyNinesCount(s[1..]);
    }
  }

  /** A table mask opens with its dial code, which has a digit other than `9`. */
  lemma MaskHasSpareDigit(country: CountryData)
    requires CountryFacts(country)
    ensures var n := |country.dialCode|;
      && n <= |country.mask|
      && country.mask == country.dialCode + country.mask[n..]
      && CountChar(country.mask, '9') < DigitCount(country.mask)
      && CountChar(country.mask[n..], '9') == DigitCount(country.mask[n..])
  {
    var d, n := country.dialCode, |country.dialCode|;
    var rest := country.mask[n..];
    assert country.mask == d + rest by {
      assert country.mask[..n] == d;
    }
    if d[1] != '9' {
      NinesBelowDigits(d, 1);
    } else {
      NinesBelowDigits(d, 2);
    }
    assert forall i :: 0 <= i < |rest| ==> rest[i] == country.mask[n + i];
    OnlyNinesCount(rest);
    DigitsOnlyConcat(d, rest);
    CountCharConcat(d, rest, '9');
  }

  /**
   * As written, a number typed exactly in a country's mask is rejected for
   * that country: it is counted with its dial-code digits against the mask's
   * placeholders only. This holds for every key of the table.
   */
  lemma MaskShapedNumberRejected(phone: string, key: string)
    requires CountryFor(Some(key)).Some?
    requires FitsMask(phone, CountryFor(Some(key)).value.mask)
    ensures !ValidatePhoneNumber(phone, Some(key))
  {
    var country := CountryFor(Some(key)).value;
    MaskHasSpareDigit(country);
    FitsMaskDigitCount(phone, country.mask);
  }

  /** The United States number `+1 (555) 555-5555` is rejected for `US`. */
  lemma UnitedStatesExampleRejected()
    ensures !ValidatePhoneNumber("+1 (555) 555-5555", Some("US"))
  {
    assert COUNTRY_DATA[0] == ("US", US);
    var phone := "+1 (555) 555-5555";
    assert FitsMask(phone, US.mask);
    MaskShapedNumberRejected(phone, "US");
  }

  /**
   * As intended, a number that starts with a country's dial code and is typed
   * in its mask is accepted, and a number with one digit more or fewer after
   * the dial code is not.
   */
  lemma MaskShapedNumberAccepted(phone: string, key: string)
    requires CountryFor(Some(key)).Some?
    requires StartsWith(phone, CountryFor(Some(key)).value.dialCode)
    ensures FitsMask(phone, CountryFor(Some(key)).value.mask) ==> ValidatePhoneNumberIntended(phone, Some(key))
    ensures var n := |CountryFor(Some(key)).value.dialCode|;
      ValidatePhoneNumberIntended(phone, Some(key)) <==>
      DigitCount(phone[n..]) == DigitCount(CountryFor(Some(key)).value.mask[n..])
  {
    var country := CountryFor(Some(key)).value;
    var n := |country.dialCode|;
    MaskHasSpareDigit(country);
    if FitsMask(phone, country.mask) {
      FitsMaskSuffix(phone, country.mask, n);
      FitsMaskDigitCount(phone[n..], country.mask[n..]);
    }
  }

  /** `+1 (555) 555-5555` is accepted for `US` as intended. */
  lemma UnitedStatesExampleAccepted()
    ensures ValidatePhoneNumberIntended("+1 (555) 555-5555", Some("US"))
  {
    assert COUNTRY_DATA[0] == ("US", US);
    var phone := "+1 (555) 555-5555";
    assert FitsMask(phone, US.mask);
    assert StartsWith(phone, "+1");
    MaskShapedNumberAccepted(phone, "US");
  }

  /* ---------------------------------------------------------------------- */
  /* Formatting a number                                                    */
  /* ---------------------------------------------------------------------- */

  /**
   * `formatPhoneNumber(phone, countryCode)`: the empty string stays empty;
   * with a known country, a number that does not start with its dial code
   * but has digits becomes the dial code, a space and those digits; anything
   * else is returned as it is.
   */
  function FormatPhoneNumber(phone: string, countryCode: Option<string>): (r: string)
    ensures r == "" <==> phone == ""
  {
    if phone == "" then ""
    else match CountryFor(countryCode)
      case None => phone
      case Some(country) =>
        if !StartsWith(phone, country.dialCode) && DigitsOnly(phone) != ""
        then country.dialCode + " " + DigitsOnly(phone)
        else phone
  }

  /**
   * With a known country, a number with a digit comes out starting with the
   * country's dial code; its digits are kept, behind the dial code's own
   * digits when the dial code was added; and formatting it again changes nothing.
   */
  lemma FormatPrefixesDialCode(phone: string, countryCode: Option<string>)
    requires CountryFor(countryCode).Some? && DigitsOnly(phone) != ""
    ensures var r, d := FormatPhoneNumber(phone, countryCode), CountryFor(countryCode).value.dialCode;
      && StartsWith(r, d)
      && (r == phone || DigitsOnly(r) == DigitsOnly(d) + DigitsOnly(phone))
      && FormatPhoneNumber(r, countryCode) == r
  {
    var d := CountryFor(countryCode).value.dialCode;
    DialCodePrefixed(d, phone);
  }

  /** The dial code, a space and the digits of a number: it starts with the dial code and keeps the digits. */
  lemma DialCodePrefixed(d: string, phone: string)
    ensures StartsWith(d + " " + DigitsOnly(phone), d)
    ensures DigitsOnly(d + " " + DigitsOnly(phone)) == DigitsOnly(d) + DigitsOnly(phone)
  {
    var x := DigitsOnly(phone);
    assert d + " " + x == d + (" " + x);
    assert (d + (" " + x))[..|d|] == d;
    assert (" " + x)[1..] == x;
    assert DigitsOnly(" " + x) == DigitsOnly(x);
    DigitsOnlyIdempotent(phone);
    DigitsOnlyConcat(d, " " + x);
  }

  /**
   * Every case of formatting: the number is returned as it is without a
   * known country, when it already starts with the dial code, or when it has
   * no digit; otherwise it becomes exactly the dial code, a space and its digits.
   */
  lemma FormatCases(phone: string, countryCode: Option<string>)
    ensures CountryFor(countryCode).None? ==> FormatPhoneNumber(phone, countryCode) == phone
    ensures DigitsOnly(phone) == "" ==> FormatPhoneNumber(phone, countryCode) == phone
    ensures CountryFor(countryCode).Some? && StartsWith(phone, CountryFor(countryCode).value.dialCode) ==>
      FormatPhoneNumber(phone, countryCode) == phone
    ensures (CountryFor(countryCode).Some? && !StartsWith(phone, CountryFor(countryCode).value.dialCode)
      && DigitsOnly(phone) != "") ==>
      FormatPhoneNumber(phone, countryCode) == CountryFor(countryCode).value.dialCode + " " + DigitsOnly(phone)
  {
  }

  /** Formatting twice is formatting once. */
  lemma FormatIdempotent(phone: string, countryCode: Option<string>)
    ensures FormatPhoneNumber(FormatPhoneNumber(phone, countryCode), countryCode) ==
      FormatPhoneNumber(phone, countryCode)
  {
    if CountryFor(countryCode).Some? && DigitsOnly(phone) != "" {
      FormatPrefixesDialCode(phone, countryCode);
    }
  }

  /** A number formatted for a known country is detected as a country with the same dial code. */
  lemma FormattedNumberDetectedByDialCode(phone: string, key: string)
    requires CountryFor(Some(key)).Some? && DigitsOnly(phone) != ""
    ensures var r := FormatPhoneNumber(phone, Some(key));
      && FirstMatchFrom(COUNTRY_DATA, r, 0).Some?
      && var f := FirstMatchFrom(COUNTRY_DATA, r, 0).value;
      && COUNTRY_DATA[f].1.dialCode == CountryFor(Some(key)).value.dialCode
      && ExpectedCountry(r) == COUNTRY_DATA[f].1.code
  {
    var r := FormatPhoneNumber(phone, Some(key));
    FormatPrefixesDialCode(phone, Some(key));
    var i :| 0 <= i < |COUNTRY_DATA| && COUNTRY_DATA[i] == (key, CountryFor(Some(key)).value);
    assert Matches(COUNTRY_DATA, i, r);
    DetectedDialCodeStartsNumber(r, i);
  }
}
