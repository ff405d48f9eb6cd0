/**
 * A bounding box given by its south-west and north-east corners, each in
 * either of the two accepted point shapes, is turned into a GeoJSON Feature
 * whose geometry is a Polygon with one closed, axis-aligned ring
 * SW -> NW -> NE -> SE -> SW.
 */
module BoundingBoxPolygon {
  import opened Wrappers

  // ---------------------------------------------------------------------------
  // Data model
  // ---------------------------------------------------------------------------

  /** A point as accepted on input: a `[lng, lat]` array, or an object whose
      `lng` and `lat` fields may each be missing. */
  datatype LngLatLike =
    | LngLatArray(first: real, second: real)
    | LngLatObject(lng: Option<real>, lat: Option<real>)

  /** The input record with its two corners. */
  datatype BoundingBox = BoundingBox(ne: LngLatLike, sw: LngLatLike)

  /** A canonical `[longitude, latitude]` pair, a GeoJSON position. */
  datatype Position = Position(lng: real, lat: real)

  /** GeoJSON Polygon geometry: its `type` member and its list of linear rings. */
  datatype Polygon = Polygon(kind: string, coordinates: seq<seq<Position>>)

  /** GeoJSON Feature: its `type` member, its geometry and its properties. */
  datatype Feature = Feature(kind: string, geometry: Polygon, properties: map<string, string>)

  const FeatureType: string := "Feature"
  const PolygonType: string := "Polygon"

  /** The message of the one error the conversion raises. */
  const InvalidLngLatLike: string := "Invalid LngLatLike object"

  // ---------------------------------------------------------------------------
  // Point normalisation (getLngLat)
  // ---------------------------------------------------------------------------

  /** True of the inputs getLngLat accepts: any array, or an object with both fields. */
  predicate IsValidLngLatLike(p: LngLatLike)
  {
    p.LngLatArray? || (p.lng.Some? && p.lat.Some?)
  }

  /** The array form of a position. */
  function AsArray(pos: Position): LngLatLike
  {
    LngLatArray(pos.lng, pos.lat)
  }

  /** The object form of a position, with both fields present. */
  function AsObject(pos: Position): LngLatLike
  {
    LngLatObject(Some(pos.lng), Some(pos.lat))
  }

  /** Normalises a point to `[lng, lat]`; an object lacking either field is an error. */
  function GetLngLat(p: LngLatLike): (r: Result<Position>)
    ensures r.Ok? <==> IsValidLngLatLike(p)
    ensures r.Err? ==> r.message == InvalidLngLatLike
  {
    match p
    case LngLatArray(x, y) => Ok(Position(x, y))
    case LngLatObject(lng, lat) =>
      if lng.Some? && lat.Some? then Ok(Position(lng.value, lat.value))
      else Err(InvalidLngLatLike)
  }

  /** Both shapes of the same position normalise back to it. */
  lemma GetLngLatRoundTrip(pos: Position)
    ensures GetLngLat(AsArray(pos)) == Ok(pos)
    ensures GetLngLat(AsObject(pos)) == Ok(pos)
  {
  }

  /** Conversely, every accepted point is the array or the object form of what it normalises to. */
  lemma GetLngLatAcceptsOnlyBothForms(p: LngLatLike, pos: Position)
    requires GetLngLat(p) == Ok(pos)
    ensures p == AsArray(pos) || p == AsObject(pos)
  {
  }

  // ---------------------------------------------------------------------------
  // Ring and Feature construction
  // ---------------------------------------------------------------------------

  /** The five positions SW, NW, NE, SE, SW of the box with corners `sw` and `ne`. */
  function Ring(sw: Position, ne: Position): (ring: seq<Position>)
    ensures IsClosedAxisAlignedRing(ring)
    ensures ring[0] == sw && ring[2] == ne
  {
    [ Position(sw.lng, sw.lat),
      Position(sw.lng, ne.lat),
      Position(ne.lng, ne.lat),
      Position(ne.lng, sw.lat),
      Position(sw.lng, sw.lat) ]
  }

  /** The Feature wrapping the single ring of the box with corners `sw` and `ne`. */
  function BoxFeature(sw: Position, ne: Position): (f: Feature)
    ensures IsBoxFeature(f)
    ensures Corners(f) == (sw, ne)
  {
    Feature(FeatureType, Polygon(PolygonType, [Ring(sw, ne)]), map[])
  }

  /** A linear ring of five positions that is closed (RFC 7946, section 3.1.6) and
      whose edges are alternately north-south and east-west. */
  predicate IsClosedAxisAlignedRing(ring: seq<Position>)
  {
    && |ring| == 5
    && ring[0] == ring[4]
    && ring[0].lng == ring[1].lng
    && ring[1].lat == ring[2].lat
    && ring[2].lng == ring[3].lng
    && ring[3].lat == ring[4].lat
  }

  /** A Feature (RFC 7946, section 3.2) with empty properties whose Polygon geometry
      has exactly one ring, and that ring is closed and axis-aligned. */
  predicate IsBoxFeature(f: Feature)
  {
    && f.kind == FeatureType
    && f.geometry.kind == PolygonType
    && f.properties == map[]
    && |f.geometry.coordinates| == 1
    && IsClosedAxisAlignedRing(f.geometry.coordinates[0])
  }

  /** The corners a box Feature was built from: the first and third ring positions. */
  function Corners(f: Feature): (corners: (Position, Position))
    requires IsBoxFeature(f)
  {
    (f.geometry.coordinates[0][0], f.geometry.coordinates[0][2])
  }

  /** Every box Feature is the one built from its own corners. */
  lemma BoxFeatureFromCorners(f: Feature)
    requires IsBoxFeature(f)
    ensures BoxFeature(Corners(f).0, Corners(f).1) == f
  {
    var ring := f.geometry.coordinates[0];
    var built := Ring(ring[0], ring[2]);
    forall i | 0 <= i < 5 ensures built[i] == ring[i] {
    }
    assert built == ring;
    assert [built] == f.geometry.coordinates;
  }

  // ---------------------------------------------------------------------------
  // The conversion (convertLngLatLikeToPolygonFeature)
  // ---------------------------------------------------------------------------

  /** Converts a bounding box to a GeoJSON Polygon Feature, failing with the
      point-normalisation error when either corner is an incomplete object. */
  function ConvertToPolygonFeature(bbox: BoundingBox): (r: Result<Feature>)
    ensures r.Ok? <==> IsValidLngLatLike(bbox.sw) && IsValidLngLatLike(bbox.ne)
    ensures r.Err? ==> r.message == InvalidLngLatLike
    ensures r.Ok? ==> IsBoxFeature(r.value)
    ensures r.Ok? ==> Corners(r.value) == (GetLngLat(bbox.sw).value, GetLngLat(bbox.ne).value)
  {
    match GetLngLat(bbox.sw)
    case Err(e) => Err(e)
    case Ok(sw) =>
      match GetLngLat(bbox.ne)
      case Err(e) => Err(e)
      case Ok(ne) =>
        Ok(BoxFeature(sw, ne))
  }

  /** On success the ring is exactly SW, NW, NE, SE, SW of the normalised corners. */
  lemma ConvertRingOrder(bbox: BoundingBox, sw: Position, ne: Position)
    requires GetLngLat(bbox.sw) == Ok(sw) && GetLngLat(bbox.ne) == Ok(ne)
    ensures ConvertToPolygonFeature(bbox).Ok?
    ensures ConvertToPolygonFeature(bbox).value.geometry.coordinates ==
      [[Position(sw.lng, sw.lat), Position(sw.lng, ne.lat), Position(ne.lng, ne.lat),
        Position(ne.lng, sw.lat), Position(sw.lng, sw.lat)]]
  {
  }

  /** The result depends only on the normalised corners. */
  lemma ConvertDependsOnlyOnCorners(b1: BoundingBox, b2: BoundingBox)
    requires GetLngLat(b1.sw) == GetLngLat(b2.sw)
    requires GetLngLat(b1.ne) == GetLngLat(b2.ne)
    ensures ConvertToPolygonFeature(b1) == ConvertToPolygonFeature(b2)
  {
  }

  /** Array and object forms of the same corners, mixed in any way, give the same Feature. */
  lemma ConvertShapeIndependent(sw: Position, ne: Position, swAsArray: bool, neAsArray: bool)
    ensures ConvertToPolygonFeature(BoundingBox(
              if neAsArray then AsArray(ne) else AsObject(ne),
              if swAsArray then AsArray(sw) else AsObject(sw)))
         == Ok(BoxFeature(sw, ne))
  {
  }

  /** A Feature is produced by the conversion exactly when it is a box Feature. */
  lemma ConvertProducesExactlyBoxFeatures(f: Feature)
    ensures (exists bbox :: ConvertToPolygonFeature(bbox) == Ok(f)) <==> IsBoxFeature(f)
  {
    if IsBoxFeature(f) {
      var (sw, ne) := Corners(f);
      BoxFeatureFromCorners(f);
      ConvertShapeIndependent(sw, ne, true, true);
      assert ConvertToPolygonFeature(BoundingBox(AsArray(ne), AsArray(sw))) == Ok(f);
    }
  }
}
