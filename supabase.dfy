/**
 * The schema types shared by the front end: the database enumerations, the
 * profile row, the row returned by the eligibility RPC, the Postgres
 * `numrange` text codec and the display label maps.
 */
module Schema {
  import opened Wrappers
  import opened Text

  // ── Enumerations ───────────────────────────────────────────────

  datatype UserRole = Citizen | Provider | Admin

  datatype ApplicationStatus = Submitted | UnderReview | Approved | Waitlisted | Rejected

  datatype AvailabilityStatus = Available | Occupied | Reserved

  datatype VerificationStatus = Pending | Verified | VerificationRejected

  datatype EmploymentType = Employed | SelfEmployed | Unemployed | Student | Retired

  datatype UnitType = Bedsitter | OneBedroom | TwoBedroom | ThreeBedroom | FourBedroomPlus

  datatype DocumentType = NationalId | Payslip | EmployerLetter | ProofOfResidence

  /** The database spelling of a document type, used in storage paths. */
  function DocumentTypeName(d: DocumentType): (name: string)
    ensures name != [] && '.' !in name && '/' !in name
  {
    match d
    case NationalId => "national_id"
    case Payslip => "payslip"
    case EmployerLetter => "employer_letter"
    case ProofOfResidence => "proof_of_residence"
  }

  // ── Rows ───────────────────────────────────────────────────────

  /** A profile row; creation and update timestamps are not modelled. */
  datatype Profile = Profile(
    id: string,
    role: UserRole,
    fullName: string,
    phone: Option<string>,
    incomeRange: Option<string>,
    householdSize: Option<int>,
    location: Option<string>,
    employmentType: Option<EmploymentType>,
    specialNeeds: Option<string>)

  datatype MatchType = HousingUnitMatch | ProgramMatch

  /** One row returned by the `match_housing_and_programs` RPC. */
  datatype EligibilityMatch = EligibilityMatch(
    matchType: MatchType,
    matchId: string,
    matchName: string,
    location: string,
    rentAmount: Option<int>,
    isSubsidized: Option<bool>,
    programName: Option<string>,
    eligibilityScore: int,
    notes: string)

  // ── numrange codec ─────────────────────────────────────────────
  //
  // parseNumrange searches its input with the unanchored pattern
  //   [\[(]([\d.]+),([\d.]+)[\])]
  // and hands both captures to parseFloat. Neither ',' nor a closing
  // bracket is in [\d.], so each greedy run can only succeed at its full
  // length and the pattern never backtracks inside a start position; the
  // search tries every start position from the left.

  predicate IsNumberChar(c: char) {
    IsDigit(c) || c == '.'
  }

  predicate IsOpener(c: char) {
    c == '[' || c == '('
  }

  predicate IsCloser(c: char) {
    c == ']' || c == ')'
  }

  predicate AllNumberChars(s: string) {
    forall k :: 0 <= k < |s| ==> IsNumberChar(s[k])
  }

  /** Length of the longest run of [\d.] starting at index j. */
  function RunLength(s: string, j: nat): (n: nat)
    requires j <= |s|
    ensures j + n <= |s|
    ensures forall k :: j <= k < j + n ==> IsNumberChar(s[k])
    ensures j + n == |s| || !IsNumberChar(s[j + n])
    decreases |s| - j
  {
    if j < |s| && IsNumberChar(s[j]) then 1 + RunLength(s, j + 1) else 0
  }

  /** The two capture groups of a successful match. */
  datatype Captures = Captures(low: string, high: string)

  /** The pattern tried at start index i. */
  function MatchAt(s: string, i: nat): Option<Captures>
    requires i < |s|
  {
    if !IsOpener(s[i]) then None
    else
      var a := RunLength(s, i + 1);
      var comma := i + 1 + a;
      if a == 0 || comma == |s| || s[comma] != ',' then None
      else
        var b := RunLength(s, comma + 1);
        var close := comma + 1 + b;
        if b == 0 || close == |s| || !IsCloser(s[close]) then None
        else Some(Captures(s[i + 1..comma], s[comma + 1..close]))
  }

  /** `s` continues at index i with an opener, x, ',', y and a closer. */
  predicate ShapeAt(s: string, i: nat, x: string, y: string) {
    && |x| > 0 && |y| > 0 && AllNumberChars(x) && AllNumberChars(y)
    && i + |x| + |y| + 3 <= |s|
    && IsOpener(s[i])
    && s[i + 1..i + 1 + |x|] == x
    && s[i + 1 + |x|] == ','
    && s[i + 2 + |x|..i + 2 + |x| + |y|] == y
    && IsCloser(s[i + 2 + |x| + |y|])
  }

  /** A run of [\d.] that ends where the text stops being [\d.] is the longest one. */
  lemma RunLengthExact(s: string, j: nat, n: nat)
    requires j + n <= |s|
    requires forall k :: j <= k < j + n ==> IsNumberChar(s[k])
    requires j + n == |s| || !IsNumberChar(s[j + n])
    ensures RunLength(s, j) == n
  {
  }

  /** The pattern matches at i with captures x and y exactly when the text has that shape there. */
  lemma MatchAtIffShape(s: string, i: nat, x: string, y: string)
    requires i < |s|
    ensures MatchAt(s, i) == Some(Captures(x, y)) <==> ShapeAt(s, i, x, y)
  {
    if ShapeAt(s, i, x, y) {
      ShapeMatches(s, i, x, y);
    }
    if MatchAt(s, i) == Some(Captures(x, y)) {
      MatchHasShape(s, i, x, y);
    }
  }

  lemma ShapeMatches(s: string, i: nat, x: string, y: string)
    requires i < |s| && ShapeAt(s, i, x, y)
    ensures MatchAt(s, i) == Some(Captures(x, y))
  {
    var comma := i + 1 + |x|;
    var close := comma + 1 + |y|;
    RunOfNumberChars(s, i + 1, x);
    RunOfNumberChars(s, comma + 1, y);
    assert MatchAt(s, i) == Some(Captures(s[i + 1..comma], s[comma + 1..close]));
  }

  /** A capture followed by a character outside [\d.] is exactly the run at its start. */
  lemma RunOfNumberChars(s: string, j: nat, x: string)
    requires j + |x| < |s| && s[j..j + |x|] == x && AllNumberChars(x)
    requires !IsNumberChar(s[j + |x|])
    ensures RunLength(s, j) == |x|
  {
    forall k | j <= k < j + |x| ensures IsNumberChar(s[k]) {
      assert s[k] == x[k - j];
    }
    RunLengthExact(s, j, |x|);
  }

  lemma MatchHasShape(s: string, i: nat, x: string, y: string)
    requires i < |s| && MatchAt(s, i) == Some(Captures(x, y))
    ensures ShapeAt(s, i, x, y)
  {
    var comma := i + 1 + |x|;
    assert forall k :: 0 <= k < |x| ==> x[k] == s[i + 1 + k];
    assert forall k :: 0 <= k < |y| ==> y[k] == s[comma + 1 + k];
  }

  /** The leftmost start index from i at which the pattern matches, or |s| when there is none. */
  function FirstMatchIndex(s: string, i: nat): (k: nat)
    requires i <= |s|
    ensures i <= k <= |s|
    ensures forall j :: i <= j < k ==> MatchAt(s, j).None?
    ensures k < |s| ==> MatchAt(s, k).Some?
    decreases |s| - i
  {
    if i == |s| || MatchAt(s, i).Some? then i else FirstMatchIndex(s, i + 1)
  }

  /** The leftmost match wins: the search stops at the first start index that matches. */
  lemma FirstMatchIndexIs(s: string, i: nat, k: nat)
    requires i <= k < |s|
    requires MatchAt(s, k).Some?
    requires forall j :: i <= j < k ==> MatchAt(s, j).None?
    ensures FirstMatchIndex(s, i) == k
  {
  }

  /** `value.match(pattern)`: the captures at the leftmost matching start index, if any. */
  function Search(s: string): Option<Captures> {
    var k := FirstMatchIndex(s, 0);
    if k < |s| then MatchAt(s, k) else None
  }

  /** A bound as `parseFloat` reads a capture; a capture holding '.' is not given a value here. */
  datatype Bound = Whole(value: nat) | NonInteger(token: string)

  datatype NumRange = NumRange(low: Bound, high: Bound)

  function ParseBound(token: string): (b: Bound)
    ensures b.Whole? <==> AllDigits(token)
  {
    if AllDigits(token) then Whole(DigitsValue(token)) else NonInteger(token)
  }

  /** parseNumrange: null for null or "", null when the pattern is found nowhere, the two bounds otherwise. */
  function ParseNumrange(value: Option<string>): (r: Option<NumRange>)
    ensures value.None? || value == Some("") ==> r.None?
    ensures value.Some? && value.value != "" ==>
      (r.None? <==> forall k :: 0 <= k < |value.value| ==> MatchAt(value.value, k).None?)
  {
    if value.None? || value.value == "" then None
    else
      match Search(value.value)
      case None => None
      case Some(c) => Some(NumRange(ParseBound(c.low), ParseBound(c.high)))
  }

  /** formatNumrange: inclusive lower bound '[', exclusive upper bound ')'. */
  function FormatNumrange(low: int, high: int): (s: string)
    ensures |s| >= 5 && s[0] == '[' && s[|s| - 1] == ')'
  {
    "[" + IntToString(low) + "," + IntToString(high) + ")"
  }

  /** The text p + o + x + "," + y + c + q has the pattern's shape right after p. */
  lemma ShapeAfterPrefix(p: string, o: char, x: string, y: string, c: char, q: string)
    requires |x| > 0 && |y| > 0 && AllNumberChars(x) && AllNumberChars(y)
    requires IsOpener(o) && IsCloser(c)
    ensures ShapeAt(p + [o] + x + "," + y + [c] + q, |p|, x, y)
  {
    var s := p + [o] + x + "," + y + [c] + q;
    var i := |p|;
    assert s == p + ([o] + x + [','] + y + [c] + q);
    var t := [o] + x + [','] + y + [c] + q;
    assert s[i..] == t;
    assert t[1..1 + |x|] == x;
    assert t[1 + |x|] == ',';
    assert t[2 + |x|..2 + |x| + |y|] == y;
    assert t[2 + |x| + |y|] == c;
  }

  /**
   * Any opening bracket, two naturals and any closing bracket, preceded by
   * text without an opening bracket and followed by anything, parse to the
   * two naturals: the bracket kinds are discarded and the match is unanchored.
   */
  lemma ParseBracketedPair(p: string, o: char, a: nat, b: nat, c: char, q: string)
    requires forall k :: 0 <= k < |p| ==> !IsOpener(p[k])
    requires IsOpener(o) && IsCloser(c)
    ensures ParseNumrange(Some(p + [o] + NatToString(a) + "," + NatToString(b) + [c] + q))
         == Some(NumRange(Whole(a), Whole(b)))
  {
    var x, y := NatToString(a), NatToString(b);
    var s := p + [o] + x + "," + y + [c] + q;
    var i := |p|;
    ShapeAfterPrefix(p, o, x, y, c, q);
    MatchAtIffShape(s, i, x, y);
    forall j | 0 <= j < i ensures MatchAt(s, j).None? {
      assert s[j] == p[j];
    }
    FirstMatchIndexIs(s, 0, i);
    assert Search(s) == Some(Captures(x, y));
    DigitsValueOfNatToString(a);
    DigitsValueOfNatToString(b);
  }

  /** Round trip: parsing a formatted pair of naturals gives the pair back. */
  lemma ParseFormatRoundTrip(low: nat, high: nat)
    ensures ParseNumrange(Some(FormatNumrange(low, high))) == Some(NumRange(Whole(low), Whole(high)))
  {
    assert FormatNumrange(low, high) == [] + ['['] + NatToString(low) + "," + NatToString(high) + [')'] + [];
    ParseBracketedPair([], '[', low, high, ')', []);
  }

  /** A negative bound is formatted with '-', which the pattern rejects: it does not round-trip. */
  lemma FormatNegativeDoesNotParse(low: int, high: int)
    requires low < 0 || high < 0
    ensures ParseNumrange(Some(FormatNumrange(low, high))) == None
  {
    var x, y := IntToString(low), IntToString(high);
    var s := FormatNumrange(low, high);
    assert s == "[" + x + "," + y + ")";
    forall k | 1 <= k < |s| ensures !IsOpener(s[k]) {
      if k <= |x| {
        assert s[k] == x[k - 1];
      } else if k == |x| + 1 {
      } else if k < |s| - 1 {
        assert s[k] == y[k - |x| - 2];
      }
    }
    if low < 0 {
      assert s[1] == '-';
      assert RunLength(s, 1) == 0;
    } else {
      assert forall k :: 1 <= k < 1 + |x| ==> s[k] == x[k - 1];
      RunLengthExact(s, 1, |x|);
      assert s[|x| + 2] == '-';
      assert RunLength(s, |x| + 2) == 0;
    }
    assert MatchAt(s, 0).None?;
  }

  /** Both directions: a formatted pair parses exactly when neither bound is negative. */
  lemma ParseFormatIffNonNegative(low: int, high: int)
    ensures ParseNumrange(Some(FormatNumrange(low, high))).Some? <==> low >= 0 && high >= 0
  {
    if low >= 0 && high >= 0 {
      ParseFormatRoundTrip(low, high);
    } else {
      FormatNegativeDoesNotParse(low, high);
    }
  }

  /** A range with a missing (unbounded) upper bound, as Postgres prints "[10000,)", does not parse. */
  lemma UnboundedUpperDoesNotParse(low: nat)
    ensures ParseNumrange(Some("[" + NatToString(low) + ",)")) == None
  {
    var x := NatToString(low);
    var s := "[" + x + ",)";
    forall k | 1 <= k < |s| ensures !IsOpener(s[k]) {
      if k <= |x| {
        assert s[k] == x[k - 1];
      }
    }
    assert forall k :: 1 <= k < 1 + |x| ==> s[k] == x[k - 1];
    RunLengthExact(s, 1, |x|);
    assert MatchAt(s, 0).None?;
  }

  /** Text without any opening bracket never parses, as "empty" shows. */
  lemma NoOpenerDoesNotParse(s: string)
    requires forall k :: 0 <= k < |s| ==> !IsOpener(s[k])
    ensures ParseNumrange(Some(s)) == None
  {
  }

  /** The example in the doc comment of parseNumrange. */
  lemma ParseDocExample()
    ensures ParseNumrange(Some("[10000,30000)")) == Some(NumRange(Whole(10000), Whole(30000)))
  {
    assert FormatNumrange(10000, 30000) == "[10000,30000)" by {
      assert NatToString(10000) == "10000";
      assert NatToString(30000) == "30000";
    }
    ParseFormatRoundTrip(10000, 30000);
  }

  /** A half-open range written the other way round keeps its values and loses its bracket kinds. */
  lemma ParseOtherBracketsExample()
    ensures ParseNumrange(Some("(10,20]")) == Some(NumRange(Whole(10), Whole(20)))
  {
    assert "(10,20]" == [] + ['('] + NatToString(10) + "," + NatToString(20) + [']'] + [] by {
      assert NatToString(10) == "10";
      assert NatToString(20) == "20";
    }
    ParseBracketedPair([], '(', 10, 20, ']', []);
  }

  /** Postgres' empty range "empty" parses to null. */
  lemma EmptyRangeExample()
    ensures ParseNumrange(Some("empty")) == None
  {
    var e := "empty";
    forall k | 0 <= k < |e| ensures !IsOpener(e[k]) {
      assert k == 0 || k == 1 || k == 2 || k == 3 || k == 4;
    }
    NoOpenerDoesNotParse(e);
  }

  /** The range "[-5,10)" with a negative bound parses to null. */
  lemma NegativeExample()
    ensures ParseNumrange(Some("[-5,10)")) == None
  {
    assert NatToString(5) == "5";
    assert NatToString(10) == "10";
    assert FormatNumrange(-5, 10) == "[-5,10)";
    FormatNegativeDoesNotParse(-5, 10);
  }

  /** `(low + high) / 2` */
  function Mean(low: nat, high: nat): (m: real)
    ensures low <= high ==> low as real <= m <= high as real
  {
    (low + high) as real / 2.0
  }

  /** The value `numrangeMidpoint` returns when the parse succeeded. */
  datatype Midpoint = Exact(value: real) | NotModelled

  /** numrangeMidpoint: null exactly when the parse is null, else (low + high) / 2. */
  function NumrangeMidpoint(value: Option<string>): (r: Option<Midpoint>)
    ensures r.None? <==> ParseNumrange(value).None?
  {
    var parsed := ParseNumrange(value);
    if parsed.None? then None
    else if parsed.value.low.Whole? && parsed.value.high.Whole? then
      Some(Exact(Mean(parsed.value.low.value, parsed.value.high.value)))
    else Some(NotModelled)
  }

  /** When both bounds parse as whole numbers the midpoint is their mean, and with low <= high it lies in [low, high]. */
  lemma MidpointWithinBounds(value: Option<string>, low: nat, high: nat)
    requires ParseNumrange(value) == Some(NumRange(Whole(low), Whole(high)))
    ensures NumrangeMidpoint(value) == Some(Exact(Mean(low, high)))
    ensures low <= high ==> low as real <= NumrangeMidpoint(value).value.value <= high as real
  {
  }

  /** The midpoint of a formatted pair of naturals is their mean. */
  lemma MidpointOfFormatted(low: nat, high: nat)
    ensures NumrangeMidpoint(Some(FormatNumrange(low, high))) == Some(Exact(Mean(low, high)))
  {
    var value := Some(FormatNumrange(low, high));
    ParseFormatRoundTrip(low, high);
    MidpointWithinBounds(value, low, high);
  }

  // ── Label maps ─────────────────────────────────────────────────

  const UnitTypeLabels: map<UnitType, string> := map[
    Bedsitter := "Bedsitter",
    OneBedroom := "1 Bedroom",
    TwoBedroom := "2 Bedrooms",
    ThreeBedroom := "3 Bedrooms",
    FourBedroomPlus := "4+ Bedrooms"]

  const ApplicationStatusLabels: map<ApplicationStatus, string> := map[
    Submitted := "Submitted",
    UnderReview := "Under Review",
    Approved := "Approved",
    Waitlisted := "Waitlisted",
    Rejected := "Rejected"]

  const ApplicationStatusColors: map<ApplicationStatus, string> := map[
    Submitted := "#3b82f6",
    UnderReview := "#f59e0b",
    Approved := "#10b981",
    Waitlisted := "#8b5cf6",
    Rejected := "#ef4444"]

  const DocumentTypeLabels: map<DocumentType, string> := map[
    NationalId := "National ID",
    Payslip := "Payslip",
    EmployerLetter := "Employer Letter",
    ProofOfResidence := "Proof of Residence"]

  const VerificationStatusColors: map<VerificationStatus, string> := map[
    Pending := "#f59e0b",
    Verified := "#10b981",
    VerificationRejected := "#ef4444"]

  const EmploymentTypeLabels: map<EmploymentType, string> := map[
    Employed := "Employed",
    SelfEmployed := "Self-Employed",
    Unemployed := "Unemployed",
    Student := "Student",
    Retired := "Retired"]

  /** Every label and colour map has exactly one entry per value of its enumeration. */
  lemma LabelMapsTotal()
    ensures forall u: UnitType :: u in UnitTypeLabels
    ensures forall a: ApplicationStatus :: a in ApplicationStatusLabels && a in ApplicationStatusColors
    ensures forall d: DocumentType :: d in DocumentTypeLabels
    ensures forall v: VerificationStatus :: v in VerificationStatusColors
    ensures forall e: EmploymentType :: e in EmploymentTypeLabels
  {
    forall u: UnitType ensures u in UnitTypeLabels {
      match u
      case Bedsitter =>
      case OneBedroom =>
      case TwoBedroom =>
      case ThreeBedroom =>
      case FourBedroomPlus =>
    }
    forall a: ApplicationStatus ensures a in ApplicationStatusLabels && a in ApplicationStatusColors {
      match a
      case Submitted =>
      case UnderReview =>
      case Approved =>
      case Waitlisted =>
      case Rejected =>
    }
    forall d: DocumentType ensures d in DocumentTypeLabels {
      match d
      case NationalId =>
      case Payslip =>
      case EmployerLetter =>
      case ProofOfResidence =>
    }
    forall v: VerificationStatus ensures v in VerificationStatusColors {
      match v
      case Pending =>
      case Verified =>
      case VerificationRejected =>
    }
    forall e: EmploymentType ensures e in EmploymentTypeLabels {
      match e
      case Employed =>
      case SelfEmployed =>
      case Unemployed =>
      case Student =>
      case Retired =>
    }
  }
}
