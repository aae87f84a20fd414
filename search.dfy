/** The logic of the hospital search page, src/pages/Search.jsx: the table of
    US state names, the address taken from a reverse-geocoding reply, the
    choice between zip, city/state and name search, and the rating stars. */
module Search {
  import opened Js
  import opened Http
  import opened Api

  // ---------------------------------------------------------------------------
  // getStateAbbreviation

  /** A postal code: two capital letters. */
  predicate IsPostalCode(code: string) {
    |code| == 2 && 'A' <= code[0] <= 'Z' && 'A' <= code[1] <= 'Z'
  }

  /** The own properties of the `states` object literal: full state name to
      two-letter postal code, in the order listed, looked up by first letter. */
  function StateCode(name: string): (code: Option<string>)
    ensures code.Some? ==> IsPostalCode(code.value)
  {
    if name == [] then None else
    match name[0]
    case 'A' =>
      (match name
      case "Alabama" => Some("AL")
      case "Alaska" => Some("AK")
      case "Arizona" => Some("AZ")
      case "Arkansas" => Some("AR")
      case _ => None)
    case 'C' =>
      (match name
      case "California" => Some("CA")
      case "Colorado" => Some("CO")
      case "Connecticut" => Some("CT")
      case _ => None)
    case 'D' =>
      (match name
      case "Delaware" => Some("DE")
      case _ => None)
    case 'F' =>
      (match name
      case "Florida" => Some("FL")
      case _ => None)
    case 'G' =>
      (match name
      case "Georgia" => Some("GA")
      case _ => None)
    case 'H' =>
      (match name
      case "Hawaii" => Some("HI")
      case _ => None)
    case 'I' =>
      (match name
      case "Idaho" => Some("ID")
      case "Illinois" => Some("IL")
      case "Indiana" => Some("IN")
      case "Iowa" => Some("IA")
      case _ => None)
    case 'K' =>
      (match name
      case "Kansas" => Some("KS")
      case "Kentucky" => Some("KY")
      case _ => None)
    case 'L' =>
      (match name
      case "Louisiana" => Some("LA")
      case _ => None)
    case 'M' =>
      (match name
      case "Maine" => Some("ME")
      case "Maryland" => Some("MD")
      case "Massachusetts" => Some("MA")
      case "Michigan" => Some("MI")
      case "Minnesota" => Some("MN")
      case "Mississippi" => Some("MS")
      case "Missouri" => Some("MO")
      case "Montana" => Some("MT")
      case _ => None)
    case 'N' =>
      (match name
      case "Nebraska" => Some("NE")
      case "Nevada" => Some("NV")
      case "New Hampshire" => Some("NH")
      case "New Jersey" => Some("NJ")
      case "New Mexico" => Some("NM")
      case "New York" => Some("NY")
      case "North Carolina" => Some("NC")
      case "North Dakota" => Some("ND")
      case _ => None)
    case 'O' =>
      (match name
      case "Ohio" => Some("OH")
      case "Oklahoma" => Some("OK")
      case "Oregon" => Some("OR")
      case _ => None)
    case 'P' =>
      (match name
      case "Pennsylvania" => Some("PA")
      case _ => None)
    case 'R' =>
      (match name
      case "Rhode Island" => Some("RI")
      case _ => None)
    case 'S' =>
      (match name
      case "South Carolina" => Some("SC")
      case "South Dakota" => Some("SD")
      case _ => None)
    case 'T' =>
      (match name
      case "Tennessee" => Some("TN")
      case "Texas" => Some("TX")
      case _ => None)
    case 'U' =>
      (match name
      case "Utah" => Some("UT")
      case _ => None)
    case 'V' =>
      (match name
      case "Vermont" => Some("VT")
      case "Virginia" => Some("VA")
      case _ => None)
    case 'W' =>
      (match name
      case "Washington" => Some("WA")
      case "West Virginia" => Some("WV")
      case "Wisconsin" => Some("WI")
      case "Wyoming" => Some("WY")
      case _ => None)
    case _ => None
  }

  /** getStateAbbreviation: the listed code of a full state name, and any other
      string unchanged. */
  function StateAbbreviation(name: string): (abbr: string)
    ensures StateCode(name).Some? ==> abbr == StateCode(name).value
    ensures StateCode(name).None? ==> abbr == name
  {
    match StateCode(name)
    case Some(code) => code
    case None => name
  }

  /** The listed codes of the states from Alabama to Georgia. */
  lemma StatesAlabamaToGeorgia()
    ensures StateAbbreviation("Alabama") == "AL"
    ensures StateAbbreviation("Alaska") == "AK"
    ensures StateAbbreviation("Arizona") == "AZ"
    ensures StateAbbreviation("Arkansas") == "AR"
    ensures StateAbbreviation("California") == "CA"
    ensures StateAbbreviation("Colorado") == "CO"
    ensures StateAbbreviation("Connecticut") == "CT"
    ensures StateAbbreviation("Delaware") == "DE"
    ensures StateAbbreviation("Florida") == "FL"
    ensures StateAbbreviation("Georgia") == "GA"
  {
  }

  /** The listed codes of the states from Hawaii to Maryland. */
  lemma StatesHawaiiToMaryland()
    ensures StateAbbreviation("Hawaii") == "HI"
    ensures StateAbbreviation("Idaho") == "ID"
    ensures StateAbbreviation("Illinois") == "IL"
    ensures StateAbbreviation("Indiana") == "IN"
    ensures StateAbbreviation("Iowa") == "IA"
    ensures StateAbbreviation("Kansas") == "KS"
    ensures StateAbbreviation("Kentucky") == "KY"
    ensures StateAbbreviation("Louisiana") == "LA"
    ensures StateAbbreviation("Maine") == "ME"
    ensures StateAbbreviation("Maryland") == "MD"
  {
  }

  /** The listed codes of the states from Massachusetts to New Jersey. */
  lemma StatesMassachusettsToNewJersey()
    ensures StateAbbreviation("Massachusetts") == "MA"
    ensures StateAbbreviation("Michigan") == "MI"
    ensures StateAbbreviation("Minnesota") == "MN"
    ensures StateAbbreviation("Mississippi") == "MS"
    ensures StateAbbreviation("Missouri") == "MO"
    ensures StateAbbreviation("Montana") == "MT"
    ensures StateAbbreviation("Nebraska") == "NE"
    ensures StateAbbreviation("Nevada") == "NV"
    ensures StateAbbreviation("New Hampshire") == "NH"
    ensures StateAbbreviation("New Jersey") == "NJ"
  {
  }

  /** The listed codes of the states from New Mexico to South Carolina. */
  lemma StatesNewMexicoToSouthCarolina()
    ensures StateAbbreviation("New Mexico") == "NM"
    ensures StateAbbreviation("New York") == "NY"
    ensures StateAbbreviation("North Carolina") == "NC"
    ensures StateAbbreviation("North Dakota") == "ND"
    ensures StateAbbreviation("Ohio") == "OH"
    ensures StateAbbreviation("Oklahoma") == "OK"
    ensures StateAbbreviation("Oregon") == "OR"
    ensures StateAbbreviation("Pennsylvania") == "PA"
    ensures StateAbbreviation("Rhode Island") == "RI"
    ensures StateAbbreviation("South Carolina") == "SC"
  {
  }

  /** The listed codes of the states from South Dakota to Wyoming. */
  lemma StatesSouthDakotaToWyoming()
    ensures StateAbbreviation("South Dakota") == "SD"
    ensures StateAbbreviation("Tennessee") == "TN"
    ensures StateAbbreviation("Texas") == "TX"
    ensures StateAbbreviation("Utah") == "UT"
    ensures StateAbbreviation("Vermont") == "VT"
    ensures StateAbbreviation("Virginia") == "VA"
    ensures StateAbbreviation("Washington") == "WA"
    ensures StateAbbreviation("West Virginia") == "WV"
    ensures StateAbbreviation("Wisconsin") == "WI"
    ensures StateAbbreviation("Wyoming") == "WY"
  {
  }

  /** No key of the table is shorter than four characters, so the empty state
      and a name that is already a code ("NY") pass through unchanged. */
  lemma ShortNamesPassThrough(name: string)
    requires |name| < 4
    ensures StateAbbreviation(name) == name
  {
  }

  /** Looking up a name twice gives what looking it up once gives: a code is
      too short to be a key, so it passes through. */
  lemma StateAbbreviationIdempotent(name: string)
    ensures StateAbbreviation(StateAbbreviation(name)) == StateAbbreviation(name)
  {
    if StateCode(name).Some? {
      ShortNamesPassThrough(StateCode(name).value);
    }
  }


  /** The names every JavaScript object inherits from Object.prototype, which
      `states[stateName]` finds even though the table does not list them. */
  const InheritedNames: set<string> := {
    "constructor", "hasOwnProperty", "isPrototypeOf", "propertyIsEnumerable",
    "toString", "toLocaleString", "valueOf", "__proto__",
    "__defineGetter__", "__defineSetter__", "__lookupGetter__", "__lookupSetter__"}

  /** What `states[stateName] || stateName` evaluates to: a string, or the
      inherited member of Object.prototype (a function, or the prototype
      object itself for `__proto__`), which is truthy and so returned. */
  datatype JsValue = Str(s: string) | Inherited(key: string)

  /** getStateAbbreviation exactly as written: an own property of the table
      first, then an inherited one, and only then the argument itself. */
  function StateAbbreviationAsWritten(name: string): (v: JsValue)
    ensures name in InheritedNames ==> v == Inherited(name)
    ensures name !in InheritedNames ==> v == Str(StateAbbreviation(name))
  {
    match StateCode(name)
    case Some(code) => Str(code)
    case None => if name in InheritedNames then Inherited(name) else Str(name)
  }

  /** A state name "toString" comes back as Object.prototype.toString instead of
      the string "toString", which the corrected lookup returns. */
  lemma InheritedKeyEscapesPassThrough()
    ensures StateAbbreviationAsWritten("toString") == Inherited("toString")
    ensures StateAbbreviation("toString") == "toString"
  {
  }

  // ---------------------------------------------------------------------------
  // Address extraction of getLocationFromCoordinates

  /** The fields of a Nominatim `address` object that the page reads. */
  datatype Address = Address(
    city: Option<string>, town: Option<string>, village: Option<string>,
    municipality: Option<string>, hamlet: Option<string>, suburb: Option<string>,
    county: Option<string>, state: Option<string>, postcode: Option<string>)

  /** What the reverse-geocoding request yields: the request or the JSON
      parse fails, or a reply arrives with or without an `address`. */
  datatype GeoReply = GeoFailed | Geocoded(address: Option<Address>)

  /** The location the page fills into its search form. */
  datatype Location = Location(city: string, state: string, zipcode: string)

  /** The city-like fields, most specific first. County is not among them. */
  function CityFields(a: Address): seq<Option<string>> {
    [a.city, a.town, a.village, a.municipality, a.hamlet, a.suburb]
  }

  /** The first present, non-empty string of a list, or "" when there is none. */
  function FirstPresent(cs: seq<Option<string>>): (r: string)
    ensures r == "" <==> forall k :: 0 <= k < |cs| ==> !Present(cs[k])
    ensures r != "" ==> exists k :: 0 <= k < |cs| && cs[k] == Some(r)
                                   && forall j :: 0 <= j < k ==> !Present(cs[j])
  {
    if cs == [] then ""
    else if Present(cs[0]) then cs[0].value
    else
      var r := FirstPresent(cs[1..]);
      assert r != "" ==> exists k :: 0 <= k < |cs| && cs[k] == Some(r)
                                     && forall j :: 0 <= j < k ==> !Present(cs[j]) by {
        if r != "" {
          var k :| 0 <= k < |cs| - 1 && cs[1..][k] == Some(r)
                   && forall j :: 0 <= j < k ==> !Present(cs[1..][j]);
          assert cs[k + 1] == Some(r);
          forall j | 0 <= j < k + 1 ensures !Present(cs[j]) {
            if j > 0 { assert cs[j] == cs[1..][j - 1]; }
          }
        }
      }
      assert r == "" ==> forall k :: 0 <= k < |cs| ==> !Present(cs[k]) by {
        if r == "" {
          forall k | 0 <= k < |cs| ensures !Present(cs[k]) {
            if k > 0 { assert cs[k] == cs[1..][k - 1]; }
          }
        }
      }
      r
  }

  /** The location read from an address: the `||` chain over the city-like
      fields, the state through getStateAbbreviation, the postcode. */
  function LocationOf(a: Address): (loc: Location)
    ensures loc.state == StateAbbreviation(Or(a.state, ""))
    ensures loc.zipcode == Or(a.postcode, "")
  {
    var city := Or(a.city, Or(a.town, Or(a.village, Or(a.municipality, Or(a.hamlet, Or(a.suburb, ""))))));
    Location(city, StateAbbreviation(Or(a.state, "")), Or(a.postcode, ""))
  }

  /** The city is the first present, non-empty city-like field, or "". */
  lemma CityIsFirstPresent(a: Address)
    ensures LocationOf(a).city == FirstPresent(CityFields(a))
  {
    var cs := CityFields(a);
    assert FirstPresent(cs[6..]) == "";
    assert FirstPresent(cs[5..]) == Or(a.suburb, "");
    assert FirstPresent(cs[4..]) == Or(a.hamlet, FirstPresent(cs[5..])) by { assert cs[4..][1..] == cs[5..]; }
    assert FirstPresent(cs[3..]) == Or(a.municipality, FirstPresent(cs[4..])) by { assert cs[3..][1..] == cs[4..]; }
    assert FirstPresent(cs[2..]) == Or(a.village, FirstPresent(cs[3..])) by { assert cs[2..][1..] == cs[3..]; }
    assert FirstPresent(cs[1..]) == Or(a.town, FirstPresent(cs[2..])) by { assert cs[1..][1..] == cs[2..]; }
  }

  /** The county never influences the location, whatever the other fields. */
  lemma CountyIgnored(a: Address, county: Option<string>)
    ensures LocationOf(a.(county := county)) == LocationOf(a)
  {
  }

  /** An address without a state gives the empty state, not a table entry. */
  lemma MissingStateStaysEmpty(a: Address)
    requires !Present(a.state)
    ensures LocationOf(a).state == ""
  {
    ShortNamesPassThrough("");
  }

  /** getLocationFromCoordinates after the request: null when the request
      fails or the reply has no address, the location of the address otherwise. */
  function LocationFromReply(reply: GeoReply): (loc: Option<Location>)
    ensures loc.None? <==> reply.GeoFailed? || reply.address.None?
    ensures loc.Some? ==> loc.value == LocationOf(reply.address.value)
  {
    match reply
    case Geocoded(Some(a)) => Some(LocationOf(a))
    case _ => None
  }

  // ---------------------------------------------------------------------------
  // handleSearch

  datatype Tab = LocationTab | NameTab

  /** The branch handleSearch takes: refuse the form, abort after starting, or
      search by zip, by city and state, or by name. */
  datatype Decision =
    | MissingLocation
    | MissingName
    | NoUsableLocation
    | ByZip(zip: string, state: string)
    | ByCityState(city: string, state: string)
    | ByName(name: string)

  /** The branch of handleSearch for a given form, stated case by case: an
      empty location form and a blank name are refused; a zip of five UTF-16
      units after trimming wins over city and state; then city and state; a
      location tab with only an unusable zip aborts. */
  function Decide(tab: Tab, city: string, state: string, zipcode: string, name: string): (d: Decision)
    ensures d.MissingLocation? <==> tab.LocationTab? && city == "" && state == "" && zipcode == ""
    ensures d.MissingName? <==> tab.NameTab? && Blank(name)
    ensures d.ByZip? <==> tab.LocationTab? && Utf16Length(Trim(zipcode)) == 5
    ensures d.ByZip? ==> d == ByZip(Trim(zipcode), state)
    ensures d.ByCityState? <==> tab.LocationTab? && Utf16Length(Trim(zipcode)) != 5 && (city != "" || state != "")
    ensures d.ByCityState? ==> d == ByCityState(city, state)
    ensures d.NoUsableLocation? <==> tab.LocationTab? && city == "" && state == ""
                                     && zipcode != "" && Utf16Length(Trim(zipcode)) != 5
    ensures d.ByName? <==> tab.NameTab? && !Blank(name)
    ensures d.ByName? ==> d == ByName(name)
  {
    if tab.LocationTab? && !Truthy(city) && !Truthy(state) && !Truthy(zipcode) then MissingLocation
    else if tab.NameTab? && !Truthy(Trim(name)) then MissingName
    else if tab.LocationTab? then
      if Truthy(zipcode) && Utf16Length(Trim(zipcode)) == 5 then ByZip(Trim(zipcode), state)
      else if Truthy(city) || Truthy(state) then ByCityState(city, state)
      else NoUsableLocation
    else ByName(name)
  }

  /** A five-digit zip is searched as typed, whatever city and state say. */
  lemma FiveDigitZipWins(city: string, state: string, zip: string, name: string)
    requires IsDigits(zip) && |zip| == 5
    ensures Decide(LocationTab, city, state, zip, name) == ByZip(zip, state)
  {
    PrintableAsciiIsNotSpace(zip[0]);
    PrintableAsciiIsNotSpace(zip[4]);
    TrimmedIsFixed(zip, IsSpace);
  }

  /** A zip made of white space only, with no city and no state, passes the
      first check and then aborts the search. */
  lemma BlankZipAborts(zip: string, name: string)
    requires zip != "" && All(zip, IsSpace)
    ensures Decide(LocationTab, "", "", zip, name) == NoUsableLocation
  {
    TrimByEmptyIffAll(zip, IsSpace);
  }

  /** The part of the page's state that handleSearch changes. */
  datatype SearchStatus = SearchStatus(results: seq<Hospital>, loading: bool, searched: bool)

  /** What handleSearch does once its guards have taken decision `d`: a
      refused form changes nothing; an abort marks the page as searched and
      stops loading; a search also shows its results, those of the zip search
      or the settled reply of the request it sends (loading is true only
      while that request is in flight). `zipSearch` stands for
      searchHospitalsByZipcode, which is not part of this model. */
  predicate SearchEffect(d: Decision, before: SearchStatus, after: SearchStatus, sent: Option<Request>,
                         net: Request -> Response<seq<Hospital>>, zipSearch: (string, string) -> seq<Hospital>)
  {
    match d
    case MissingLocation => sent.None? && after == before
    case MissingName => sent.None? && after == before
    case NoUsableLocation => sent.None? && after == SearchStatus(before.results, false, true)
    case ByZip(zip, st) => sent.None? && after == SearchStatus(zipSearch(zip, st), false, true)
    case ByCityState(c, st) =>
      && sent == Some(CityStateRequest(c, st, CityStateLimit))
      && after == SearchStatus(Settle(net(sent.value), []), false, true)
    case ByName(nm) =>
      && sent == Some(NameRequest(nm, NameLimit))
      && after == SearchStatus(Settle(net(sent.value), []), false, true)
  }

  /** The page's form and result state. */
  class SearchPage {
    var searchType: Tab
    var city: string
    var state: string
    var zipcode: string
    var name: string
    var results: seq<Hospital>
    var loading: bool
    var searched: bool
    var locationLoading: bool

    /** The initial state of the page. */
    constructor ()
      ensures searchType == LocationTab && city == "" && state == "" && zipcode == "" && name == ""
      ensures results == [] && !loading && !searched && !locationLoading
    {
      searchType := LocationTab;
      city, state, zipcode, name := "", "", "", "";
      results := [];
      loading, searched, locationLoading := false, false, false;
    }

    function Status(): SearchStatus
      reads this
    {
      SearchStatus(results, loading, searched)
    }

    /** handleSearch as one atomic step: its guards are Decide, and the
        branch taken has the effect SearchEffect gives it. The form is never
        changed. */
    method HandleSearch(net: Request -> Response<seq<Hospital>>, zipSearch: (string, string) -> seq<Hospital>)
      returns (decision: Decision, sent: Option<Request>)
      modifies this
      ensures decision == Decide(old(searchType), old(city), old(state), old(zipcode), old(name))
      ensures searchType == old(searchType) && city == old(city) && state == old(state)
              && zipcode == old(zipcode) && name == old(name) && locationLoading == old(locationLoading)
      ensures SearchEffect(decision, old(Status()), Status(), sent, net, zipSearch)
    {
      decision := Decide(searchType, city, state, zipcode, name);
      sent := Dispatch(decision, net, zipSearch);
    }

    /** The branches of handleSearch after its guards, for a decision already
        taken. */
    method Dispatch(decision: Decision, net: Request -> Response<seq<Hospital>>,
                    zipSearch: (string, string) -> seq<Hospital>)
      returns (sent: Option<Request>)
      modifies this
      ensures searchType == old(searchType) && city == old(city) && state == old(state)
              && zipcode == old(zipcode) && name == old(name) && locationLoading == old(locationLoading)
      ensures SearchEffect(decision, old(Status()), Status(), sent, net, zipSearch)
    {
      sent := None;
      match decision
      case MissingLocation =>
      case MissingName =>
      case NoUsableLocation =>
        searched := true;
        loading := false;
      case ByZip(zip, st) =>
        searched := true;
        results := zipSearch(zip, st);
        loading := false;
      case ByCityState(c, st) =>
        searched := true;
        var request, data := SearchHospitalsByCityState(c, st, CityStateLimit, net);
        sent := Some(request);
        results := data;
        loading := false;
      case ByName(nm) =>
        searched := true;
        var request, data := SearchHospitalsByName(nm, NameLimit, net);
        sent := Some(request);
        results := data;
        loading := false;
    }

    /** The success and failure callbacks of handleUseMyLocation once the
        reverse geocoding has answered: a found location fills the three form
        fields, and the spinner stops either way. The notice says which alert
        the page shows. */
    method ApplyLocation(reply: GeoReply) returns (notice: Notice)
      modifies this
      ensures LocationFromReply(reply).Some? ==>
                var loc := LocationFromReply(reply).value;
                city == loc.city && state == loc.state && zipcode == loc.zipcode
                && notice == (if loc.zipcode == "" && loc.state != "" then StateOnly(loc.state) else Silent)
      ensures LocationFromReply(reply).None? ==>
                city == old(city) && state == old(state) && zipcode == old(zipcode) && notice == Unlocated
      ensures !locationLoading
      ensures searchType == old(searchType) && name == old(name) && results == old(results)
              && loading == old(loading) && searched == old(searched)
    {
      var location := LocationFromReply(reply);
      if location.Some? {
        city := location.value.city;
        state := location.value.state;
        zipcode := location.value.zipcode;
        locationLoading := false;
        notice := if location.value.zipcode == "" && location.value.state != "" then StateOnly(location.value.state) else Silent;
      } else {
        notice := Unlocated;
        locationLoading := false;
      }
    }
  }

  /** The alert handleUseMyLocation shows after geocoding: none, the one
      asking for a zip when only the state was found, or the one saying the
      location could not be determined. */
  datatype Notice = Silent | StateOnly(state: string) | Unlocated

  // ---------------------------------------------------------------------------
  // getRatingStars

  /** The star literal of the source as it is stored: the UTF-8 bytes of a
      star emoji read back as three Mac Roman characters. */
  const Star: string := "\U{201A}\U{2260}\U{00EA}"

  /** What rendering a rating gives: a text, or the RangeError that `repeat`
      throws on a negative count. */
  datatype Stars = Text(s: string) | RangeError

  /** getRatingStars: "N/A" for a missing, empty or "Not Available" rating;
      otherwise the star repeated parseInt(rating) times, where NaN repeats
      it no times and a negative count throws. */
  function RatingStars(rating: Option<string>): (r: Stars)
    ensures r == Text("N/A") <==> !Present(rating) || rating.value == "Not Available"
  {
    if !Present(rating) || rating.value == "Not Available" then Text("N/A")
    else
      match ParseInt(rating.value)
      case NaN => Text("")
      case Num(n) =>
        if n < 0 then RangeError
        else
          assert n > 0 ==> Repeat(Star, n)[0] == Star[0];
          Text(Repeat(Star, n))
  }

  /** A rating written as a decimal numeral shows that many stars, three
      characters each. */
  lemma NumeralRatingStars(n: nat)
    ensures RatingStars(Some(NatToString(n))) == Text(Repeat(Star, n))
    ensures |RatingStars(Some(NatToString(n))).s| == 3 * n
  {
    var d := NatToString(n);
    assert d[0] != 'N';
    ParseIntOfDigits(d);
    DecimalRoundTrip(n);
    RepeatLength(Star, n);
  }

  /** A negative numeral makes `repeat` throw. */
  lemma NegativeRatingThrows(n: nat)
    requires n > 0
    ensures RatingStars(Some("-" + NatToString(n))) == RangeError
  {
    var d := NatToString(n);
    ParseIntOfNegativeDigits(d);
    DecimalRoundTrip(n);
  }

  /** A rating with no leading digit, sign or white space shows no stars. */
  lemma NonNumericRatingIsEmpty(rating: string)
    requires rating != "" && rating != "Not Available"
    requires !IsSpace(rating[0]) && !IsDigit(rating[0]) && rating[0] != '-' && rating[0] != '+'
    ensures RatingStars(Some(rating)) == Text("")
  {
    assert TrimStart(rating) == rating;
  }
}
