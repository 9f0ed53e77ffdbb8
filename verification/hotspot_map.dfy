/** The hotspot map (client/src/components/HotspotMap.jsx): one circle marker
    per hotspot, coloured by disease and sized by case count. */
module HotspotMap {
  import opened Base

  /** The props the component reads from one hotspot record. JavaScript
      numbers are reals. */
  datatype Hotspot = Hotspot(
    id: real,
    lat: real,
    lon: real,
    location: string,
    disease: string,
    cases: real)

  datatype Popup = Popup(location: string, disease: string, cases: real)

  datatype Marker = Marker(
    key: real,
    center: (real, real),
    radius: real,
    color: string,
    fillColor: string,
    fillOpacity: real,
    popup: Popup)

  /** The map's fixed centre (Bhubaneswar). */
  const MapCenter: (real, real) := (20.2961, 85.8245)

  const Cholera: string := "#E74C3C"
  const Typhoid: string := "#FFC300"
  const HepatitisA: string := "#3498DB"
  const Diarrhea: string := "#2ECC71"
  const Grey: string := "#95A5A6"

  /** The palette as a lookup table: the four diseases with a colour of their
      own, in switch order. */
  const Palette: seq<(string, string)> :=
    [("Cholera", Cholera), ("Typhoid", Typhoid), ("Hepatitis A", HepatitisA), ("Diarrhea", Diarrhea)]

  /** `getDiseaseColor`: an exact, case-sensitive match on the disease name,
      grey for anything else. */
  function DiseaseColor(disease: string): (c: string)
    ensures c == Grey <==> forall k :: 0 <= k < |Palette| ==> Palette[k].0 != disease
    ensures forall k :: 0 <= k < |Palette| && Palette[k].0 == disease ==> c == Palette[k].1
  {
    assert Palette[0].0 == "Cholera" && Palette[1].0 == "Typhoid";
    assert Palette[2].0 == "Hepatitis A" && Palette[3].0 == "Diarrhea";
    if disease == "Cholera" then Cholera
    else if disease == "Typhoid" then Typhoid
    else if disease == "Hepatitis A" then HepatitisA
    else if disease == "Diarrhea" then Diarrhea
    else Grey
  }

  /** The named diseases get pairwise distinct colours, none of them grey. */
  lemma PaletteDistinct()
    ensures forall j, k :: 0 <= j < k < |Palette| ==> Palette[j].0 != Palette[k].0 && Palette[j].1 != Palette[k].1
    ensures forall k :: 0 <= k < |Palette| ==> Palette[k].1 != Grey
  {
  }

  /** Matching is exact: a lower-case variant is an unknown disease. */
  lemma CaseVariantIsGrey()
    ensures DiseaseColor("cholera") == Grey
  {
  }

  /** `5 + cases / 5`, unclamped. */
  function Radius(cases: real): (r: real)
    ensures cases >= 0.0 ==> r >= 5.0
  {
    5.0 + cases / 5.0
  }

  /** The case count the radius was drawn from. */
  function CasesOfRadius(r: real): real
  {
    (r - 5.0) * 5.0
  }

  /** No two case counts share a radius: the radius determines the count. */
  lemma RadiusInvertible(cases: real)
    ensures CasesOfRadius(Radius(cases)) == cases
  {
  }

  /** Larger counts draw larger circles, without bound. */
  lemma RadiusStrictlyIncreasing(a: real, b: real)
    requires a < b
    ensures Radius(a) < Radius(b)
  {
  }

  function MarkerOf(h: Hotspot): Marker
  {
    Marker(
      h.id,
      (h.lat, h.lon),
      Radius(h.cases),
      DiseaseColor(h.disease),
      DiseaseColor(h.disease),
      0.7,
      Popup(h.location, h.disease, h.cases))
  }

  /** `hotspots.map(...)`: one marker per hotspot, in order, keyed by id and
      centred on its coordinates, with stroke and fill in the disease colour. */
  function Markers(hotspots: seq<Hotspot>): (ms: seq<Marker>)
    ensures |ms| == |hotspots|
    ensures forall i :: 0 <= i < |ms| ==>
      && ms[i].key == hotspots[i].id
      && ms[i].center == (hotspots[i].lat, hotspots[i].lon)
      && ms[i].color == ms[i].fillColor == DiseaseColor(hotspots[i].disease)
      && ms[i].fillOpacity == 0.7
      && CasesOfRadius(ms[i].radius) == hotspots[i].cases
      && ms[i].popup == Popup(hotspots[i].location, hotspots[i].disease, hotspots[i].cases)
  {
    MapSeq(MarkerOf, hotspots)
  }
}
