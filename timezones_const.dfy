/** The fixed table of selectable cities. */
module TimezoneTable {
  import opened Wrappers
  import opened TimezoneTypes
  import Seqs

  /** A table entry: it has a label, a zone and coordinates, and no region. */
  function City(name: string, zone: string, latitude: real, longitude: real): Timezone {
    Timezone(name, None, zone, latitude, longitude)
  }

  /** The cities a clock can be switched to, in display order, section by section. */
  const TimezoneOptions: seq<Timezone> :=
    NorthAmerica + SouthAmerica + Europe + Asia + AustraliaPacific + Africa

  const NorthAmerica: seq<Timezone> :=
    [
      City("New York", "America/New_York", 40.7128, -74.006),
      City("Los Angeles", "America/Los_Angeles", 34.0522, -118.2437),
      City("Las Vegas", "America/Los_Angeles", 36.1699, -115.1398),
      City("Chicago", "America/Chicago", 41.8781, -87.6298),
      City("Toronto", "America/Toronto", 43.65107, -79.347015),
      City("Vancouver", "America/Vancouver", 49.2827, -123.1207),
      City("Mexico City", "America/Mexico_City", 19.4326, -99.1332)
    ]

  const SouthAmerica: seq<Timezone> :=
    [
      City("Buenos Aires", "America/Argentina/Buenos_Aires", -34.6037, -58.3816),
      City("São Paulo", "America/Sao_Paulo", -23.5505, -46.6333),
      City("Lima", "America/Lima", -12.0464, -77.0428),
      City("Bogotá", "America/Bogota", 4.711, -74.0721),
      City("Santiago", "America/Santiago", -33.4489, -70.6693)
    ]

  const Europe: seq<Timezone> :=
    [
      City("London", "Europe/London", 51.5074, -0.1278),
      City("Paris", "Europe/Paris", 48.8566, 2.3522),
      City("Berlin", "Europe/Berlin", 52.52, 13.405),
      City("Madrid", "Europe/Madrid", 40.4168, -3.7038),
      City("Rome", "Europe/Rome", 41.9028, 12.4964),
      City("Moscow", "Europe/Moscow", 55.7558, 37.6173),
      City("Istanbul", "Europe/Istanbul", 41.0082, 28.9784),
      City("Athens", "Europe/Athens", 37.9838, 23.7275)
    ]

  const Asia: seq<Timezone> :=
    [
      City("Tokyo", "Asia/Tokyo", 35.6895, 139.6917),
      City("Seoul", "Asia/Seoul", 37.5665, 126.978),
      City("Beijing", "Asia/Shanghai", 39.9042, 116.4074),
      City("Taipei", "Asia/Taipei", 25.033, 121.565),
      City("Bangkok", "Asia/Bangkok", 13.7563, 100.5018),
      City("Mumbai", "Asia/Kolkata", 19.076, 72.8777),
      City("Dubai", "Asia/Dubai", 25.276987, 55.296249),
      City("Singapore", "Asia/Singapore", 1.3521, 103.8198),
      City("Jakarta", "Asia/Jakarta", -6.2088, 106.8456)
    ]

  const AustraliaPacific: seq<Timezone> :=
    [
      City("Sydney", "Australia/Sydney", -33.8688, 151.2093),
      City("Melbourne", "Australia/Melbourne", -37.8136, 144.9631),
      City("Auckland", "Pacific/Auckland", -36.8485, 174.7633),
      City("Brisbane", "Australia/Brisbane", -27.4698, 153.0251),
      City("Perth", "Australia/Perth", -31.9505, 115.8605)
    ]

  const Africa: seq<Timezone> :=
    [
      City("Cape Town", "Africa/Johannesburg", -33.9249, 18.4241),
      City("Cairo", "Africa/Cairo", 30.0444, 31.2357),
      City("Nairobi", "Africa/Nairobi", -1.286389, 36.817223),
      City("Lagos", "Africa/Lagos", 6.5244, 3.3792),
      City("Casablanca", "Africa/Casablanca", 33.5731, -7.5898)
    ]

  /** A label's length, first and last character: enough to tell the table's labels apart. */
  function Signature(name: string): (int, char, char) {
    if name == [] then (0, ' ', ' ') else (|name|, name[0], name[|name| - 1])
  }

  /** The table position whose label has signature `sig`, or -1: an inverse of the label column. */
  function SignatureIndex(sig: (int, char, char)): int {
    if sig == (8, 'N', 'k') then 0
    else if sig == (11, 'L', 's') then 1
    else if sig == (9, 'L', 's') then 2
    else if sig == (7, 'C', 'o') then 3
    else if sig == (7, 'T', 'o') then 4
    else if sig == (9, 'V', 'r') then 5
    else if sig == (11, 'M', 'y') then 6
    else if sig == (12, 'B', 's') then 7
    else if sig == (9, 'S', 'o') then 8
    else if sig == (4, 'L', 'a') then 9
    else if sig == (6, 'B', 'á') then 10
    else if sig == (8, 'S', 'o') then 11
    else if sig == (6, 'L', 'n') then 12
    else if sig == (5, 'P', 's') then 13
    else if sig == (6, 'B', 'n') then 14
    else if sig == (6, 'M', 'd') then 15
    else if sig == (4, 'R', 'e') then 16
    else if sig == (6, 'M', 'w') then 17
    else if sig == (8, 'I', 'l') then 18
    else if sig == (6, 'A', 's') then 19
    else if sig == (5, 'T', 'o') then 20
    else if sig == (5, 'S', 'l') then 21
    else if sig == (7, 'B', 'g') then 22
    else if sig == (6, 'T', 'i') then 23
    else if sig == (7, 'B', 'k') then 24
    else if sig == (6, 'M', 'i') then 25
    else if sig == (5, 'D', 'i') then 26
    else if sig == (9, 'S', 'e') then 27
    else if sig == (7, 'J', 'a') then 28
    else if sig == (6, 'S', 'y') then 29
    else if sig == (9, 'M', 'e') then 30
    else if sig == (8, 'A', 'd') then 31
    else if sig == (8, 'B', 'e') then 32
    else if sig == (5, 'P', 'h') then 33
    else if sig == (9, 'C', 'n') then 34
    else if sig == (5, 'C', 'o') then 35
    else if sig == (7, 'N', 'i') then 36
    else if sig == (5, 'L', 's') then 37
    else if sig == (10, 'C', 'a') then 38
    else -1
  }

  /** Latitude in [-90, 90] and longitude in [-180, 180]. */
  predicate OnTheGlobe(t: Timezone) {
    -90.0 <= t.latitude <= 90.0 && -180.0 <= t.longitude <= 180.0
  }

  /** `zone` is `area` + "/" + a non-empty location. */
  predicate InArea(zone: string, area: string) {
    |area| + 1 < |zone| && zone[..|area|] == area && zone[|area|] == '/'
  }

  /** An IANA zone id in one of the six continental areas the table uses. */
  predicate IanaAreaZone(zone: string) {
    InArea(zone, "America") || InArea(zone, "Europe") || InArea(zone, "Asia")
    || InArea(zone, "Australia") || InArea(zone, "Pacific") || InArea(zone, "Africa")
  }

  /**
   * What an entry at table position `i` satisfies: its label leads back to `i`,
   * its zone is an IANA "Area/Location" id, it has no region, its coordinates are valid.
   */
  predicate EntryFacts(t: Timezone, i: nat) {
    SignatureIndex(Signature(t.city)) == i && IanaAreaZone(t.timezone) && t.region.None? && OnTheGlobe(t)
  }

  // One lemma per section of the table keeps each proof small.

  lemma ZonesNorthAmerica(k: nat)
    requires k < |NorthAmerica|
    ensures InArea(NorthAmerica[k].timezone, "America")
  {
  }

  lemma EntryFactsNorthAmerica(k: nat)
    requires k < |NorthAmerica|
    ensures EntryFacts(NorthAmerica[k], k)
  {
    ZonesNorthAmerica(k);
  }

  lemma ZonesSouthAmerica(k: nat)
    requires k < |SouthAmerica|
    ensures InArea(SouthAmerica[k].timezone, "America")
  {
  }

  lemma EntryFactsSouthAmerica(k: nat)
    requires k < |SouthAmerica|
    ensures EntryFacts(SouthAmerica[k], 7 + k)
  {
    ZonesSouthAmerica(k);
  }

  lemma ZonesEurope(k: nat)
    requires k < |Europe|
    ensures InArea(Europe[k].timezone, "Europe")
  {
  }

  lemma EntryFactsEurope(k: nat)
    requires k < |Europe|
    ensures EntryFacts(Europe[k], 12 + k)
  {
    ZonesEurope(k);
  }

  lemma ZonesAsia(k: nat)
    requires k < |Asia|
    ensures InArea(Asia[k].timezone, "Asia")
  {
  }

  lemma EntryFactsAsia(k: nat)
    requires k < |Asia|
    ensures EntryFacts(Asia[k], 20 + k)
  {
    ZonesAsia(k);
  }

  lemma ZonesAustraliaPacific(k: nat)
    requires k < |AustraliaPacific|
    ensures InArea(AustraliaPacific[k].timezone, "Australia") || InArea(AustraliaPacific[k].timezone, "Pacific")
  {
  }

  lemma EntryFactsAustraliaPacific(k: nat)
    requires k < |AustraliaPacific|
    ensures EntryFacts(AustraliaPacific[k], 29 + k)
  {
    ZonesAustraliaPacific(k);
  }

  lemma ZonesAfrica(k: nat)
    requires k < |Africa|
    ensures InArea(Africa[k].timezone, "Africa")
  {
  }

  lemma EntryFactsAfrica(k: nat)
    requires k < |Africa|
    ensures EntryFacts(Africa[k], 34 + k)
  {
    ZonesAfrica(k);
  }

  /** Every entry's label leads back to its position, its zone is an "Area/Location" id, it carries no region and its coordinates are valid. */
  lemma EntryFactsAll(i: nat)
    requires i < |TimezoneOptions|
    ensures EntryFacts(TimezoneOptions[i], i)
  {
    if i < 7 {
      assert TimezoneOptions[i] == NorthAmerica[i];
      EntryFactsNorthAmerica(i);
    } else if i < 12 {
      assert TimezoneOptions[i] == SouthAmerica[i - 7];
      EntryFactsSouthAmerica(i - 7);
    } else if i < 20 {
      assert TimezoneOptions[i] == Europe[i - 12];
      EntryFactsEurope(i - 12);
    } else if i < 29 {
      assert TimezoneOptions[i] == Asia[i - 20];
      EntryFactsAsia(i - 20);
    } else if i < 34 {
      assert TimezoneOptions[i] == AustraliaPacific[i - 29];
      EntryFactsAustraliaPacific(i - 29);
    } else {
      assert TimezoneOptions[i] == Africa[i - 34];
      EntryFactsAfrica(i - 34);
    }
  }

  /** The table lists 39 cities. */
  lemma TableSize()
    ensures |TimezoneOptions| == 39
  {
  }

  /** No two entries share a label, so a label identifies a city. */
  lemma LabelsDistinct()
    ensures forall i, j :: 0 <= i < j < |TimezoneOptions| ==> TimezoneOptions[i].city != TimezoneOptions[j].city
  {
    forall i, j | 0 <= i < j < |TimezoneOptions|
      ensures TimezoneOptions[i].city != TimezoneOptions[j].city
    {
      EntryFactsAll(i);
      EntryFactsAll(j);
    }
  }

  /** No entry carries a region. */
  lemma NoRegions()
    ensures forall i :: 0 <= i < |TimezoneOptions| ==> TimezoneOptions[i].region.None?
  {
    forall i | 0 <= i < |TimezoneOptions| ensures TimezoneOptions[i].region.None? {
      EntryFactsAll(i);
    }
  }

  /** Every zone is an IANA "Area/Location" id in one of six continental areas. */
  lemma ZonesAreAreaIds()
    ensures forall i :: 0 <= i < |TimezoneOptions| ==> IanaAreaZone(TimezoneOptions[i].timezone)
  {
    forall i | 0 <= i < |TimezoneOptions| ensures IanaAreaZone(TimezoneOptions[i].timezone) {
      EntryFactsAll(i);
    }
  }

  /** Every latitude is in [-90, 90] and every longitude in [-180, 180]. */
  lemma CoordinatesOnTheGlobe()
    ensures forall i :: 0 <= i < |TimezoneOptions| ==> OnTheGlobe(TimezoneOptions[i])
  {
    forall i | 0 <= i < |TimezoneOptions| ensures OnTheGlobe(TimezoneOptions[i]) {
      EntryFactsAll(i);
    }
  }

  /** The first entry is New York. */
  lemma FirstEntryIsNewYork()
    ensures TimezoneOptions[0] == Timezone("New York", None, "America/New_York", 40.7128, -74.006)
  {
  }

  /**
   * Zone ids are not a key: Los Angeles and Las Vegas share
   * 'America/Los_Angeles', and a first-match search by zone finds Los Angeles.
   */
  lemma LosAngelesZoneShared()
    ensures TimezoneOptions[1].city == "Los Angeles" && TimezoneOptions[2].city == "Las Vegas"
    ensures TimezoneOptions[1].timezone == TimezoneOptions[2].timezone == "America/Los_Angeles"
    ensures Seqs.Find(TimezoneOptions, (t: Timezone) => t.timezone == "America/Los_Angeles") == Some(TimezoneOptions[1])
  {
    var p := (t: Timezone) => t.timezone == "America/Los_Angeles";
    assert !p(TimezoneOptions[0]) && p(TimezoneOptions[1]);
  }
}
