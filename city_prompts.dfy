/**
 * The city prompt table: for each supported city, the text appended to the receipt
 * recognition prompt, and the lookups by "City, Region" key.
 */
module CityPrompts {
  import opened Wrappers
  import Seqs
  import Storage

  /**
   * One supported city. The prompt suffix is written out from the city's local practices, as
   * every entry of the table writes it.
   */
  datatype CityPrompt = CityPrompt(city: string, region: string, practices: seq<string>, description: string) {
    /** The text appended to the recognition prompt for this city. */
    function PromptSuffix(): (s: string)
      ensures s != ""
    {
      Suffix(city + ", " + region, practices)
    }
  }

  /** The bullet lines of a prompt suffix, each on its own line after "- ". */
  function Bullets(lines: seq<string>): string {
    if lines == [] then "" else "\n- " + lines[0] + Bullets(lines[1..])
  }

  /** A prompt suffix: two blank lines, the place, and the local practices as bullets. */
  function Suffix(place: string, lines: seq<string>): string {
    "\n\nIMPORTANT: This receipt is from " + place + ". Please consider local waste management practices:" + Bullets(lines)
  }

  const Mumbai: CityPrompt := CityPrompt("Mumbai", "Maharashtra",
    [
      "BMC (Brihanmumbai Municipal Corporation) has specific segregation rules",
      "Wet waste should be disposed daily due to humidity",
      "Dry waste can be stored for 7 days before disposal",
      "Hazardous waste must be taken to designated collection centers",
      "E-waste collection is available through authorized dealers"],
    "Mumbai-specific waste management guidelines")

  const Delhi: CityPrompt := CityPrompt("Delhi", "NCR",
    [
      "MCD (Municipal Corporation of Delhi) enforces strict segregation",
      "Wet waste should be composted or disposed within 24 hours",
      "Dry waste can be stored for up to 7 days",
      "Hazardous waste requires special handling and collection",
      "E-waste can be dropped at designated collection points"],
    "Delhi NCR-specific waste management guidelines")

  const Bengaluru: CityPrompt := CityPrompt("Bengaluru", "Karnataka",
    [
      "BBMP (Bruhat Bengaluru Mahanagara Palike) has comprehensive waste segregation rules",
      "Wet waste should be disposed daily or every other day",
      "Dry waste can be stored for 7 days before disposal",
      "Hazardous waste must be taken to designated collection centers",
      "E-waste collection is available through authorized dealers"],
    "Bengaluru-specific waste management guidelines")

  const Chennai: CityPrompt := CityPrompt("Chennai", "Tamil Nadu",
    [
      "Greater Chennai Corporation has specific segregation requirements",
      "Wet waste should be disposed daily due to tropical climate",
      "Dry waste can be stored for 7 days before disposal",
      "Hazardous waste requires special handling and collection",
      "E-waste can be dropped at designated collection points"],
    "Chennai-specific waste management guidelines")

  const Hyderabad: CityPrompt := CityPrompt("Hyderabad", "Telangana",
    [
      "GHMC (Greater Hyderabad Municipal Corporation) enforces waste segregation",
      "Wet waste should be disposed daily or every other day",
      "Dry waste can be stored for 7 days before disposal",
      "Hazardous waste must be taken to designated collection centers",
      "E-waste collection is available through authorized dealers"],
    "Hyderabad-specific waste management guidelines")

  /** `CITY_PROMPTS`: keys and entries in the order they are written. */
  const Table: seq<(string, CityPrompt)> := [
    ("Mumbai, Maharashtra", Mumbai), ("Delhi, NCR", Delhi), ("Bengaluru, Karnataka", Bengaluru),
    ("Chennai, Tamil Nadu", Chennai), ("Hyderabad, Telangana", Hyderabad)]

  /** The key a city is filed under. */
  function KeyOf(p: CityPrompt): string {
    p.city + ", " + p.region
  }

  /** Every key is its entry's city and region. */
  lemma KeysAreCityAndRegion()
    ensures forall k :: 0 <= k < |Table| ==> Table[k].0 == KeyOf(Table[k].1)
  {
    MumbaiKey();
    DelhiKey();
    BengaluruKey();
    ChennaiKey();
    HyderabadKey();
  }

  lemma MumbaiKey()
    ensures KeyOf(Mumbai) == "Mumbai, Maharashtra"
  {
  }

  lemma DelhiKey()
    ensures KeyOf(Delhi) == "Delhi, NCR"
  {
  }

  lemma BengaluruKey()
    ensures KeyOf(Bengaluru) == "Bengaluru, Karnataka"
  {
  }

  lemma ChennaiKey()
    ensures KeyOf(Chennai) == "Chennai, Tamil Nadu"
  {
  }

  lemma HyderabadKey()
    ensures KeyOf(Hyderabad) == "Hyderabad, Telangana"
  {
  }

  /** No key is used twice: the five keys already differ in their first letter. */
  lemma KeysDistinct()
    ensures forall i, j :: 0 <= i < j < |Table| ==> Table[i].0 != Table[j].0
  {
    assert forall k :: 0 <= k < |Table| ==> Table[k].0[0] == "MDBCH"[k];
  }

  function HasKey(key: string): ((string, CityPrompt)) -> bool {
    (e: (string, CityPrompt)) => e.0 == key
  }

  /** `getCityPrompt`: the entry filed under `key`, or none for a key the table lacks. */
  function GetCityPrompt(key: string): (r: Option<CityPrompt>)
    ensures r.None? <==> forall k :: 0 <= k < |Table| ==> Table[k].0 != key
    ensures r.Some? ==> exists k :: 0 <= k < |Table| && Table[k] == (key, r.value)
  {
    match Seqs.Find(HasKey(key), Table)
    case Some(e) => Some(e.1)
    case None => None
  }

  /** `Object.values`: the entries of a table in order. */
  function Values(table: seq<(string, CityPrompt)>): (r: seq<CityPrompt>)
    ensures |r| == |table|
    ensures forall k :: 0 <= k < |table| ==> r[k] == table[k].1
  {
    seq(|table|, k requires 0 <= k < |table| => table[k].1)
  }

  /** `getAllCities`: the five entries in table order. */
  function GetAllCities(): (r: seq<CityPrompt>)
    ensures |r| == |Table| == 5
    ensures forall k :: 0 <= k < |Table| ==> r[k] == Table[k].1
  {
    Values(Table)
  }

  /** Looking up the key of any listed city gives back that city. */
  lemma LookupListedCity(k: nat)
    requires k < |GetAllCities()|
    ensures GetCityPrompt(KeyOf(GetAllCities()[k])) == Some(GetAllCities()[k])
  {
    KeysAreCityAndRegion();
    KeysDistinct();
    var key := KeyOf(GetAllCities()[k]);
    var j :| 0 <= j < |Table| && Table[j] == (key, GetCityPrompt(key).value);
    assert j == k;
  }

  /** A city found under a key is the city that key names. */
  lemma LookupNamesCity(key: string)
    requires GetCityPrompt(key).Some?
    ensures KeyOf(GetCityPrompt(key).value) == key
  {
    KeysAreCityAndRegion();
  }

  /** `getCityPromptSuffix`: the suffix of the entry filed under `key`, or "" for a key the table lacks. */
  function GetCityPromptSuffix(key: string): (s: string)
    ensures GetCityPrompt(key).Some? ==> s == GetCityPrompt(key).value.PromptSuffix()
    ensures s == "" <==> GetCityPrompt(key).None?
  {
    match GetCityPrompt(key)
    case Some(p) => p.PromptSuffix()
    case None => ""
  }

  /** A city the table lacks gets no suffix, for example Pune. */
  lemma UnknownCityHasNoSuffix()
    ensures GetCityPrompt("Pune, Maharashtra").None?
    ensures GetCityPromptSuffix("Pune, Maharashtra") == ""
  {
  }

  /** The city the settings start with is listed. */
  lemma DefaultCityListed()
    ensures GetCityPrompt(Storage.DefaultCity) == Some(Bengaluru)
  {
    KeysAreCityAndRegion();
    LookupListedCity(2);
  }
}
