# Bounding box to GeoJSON Polygon Feature

A Dafny model of `convertLngLatLikeToPolygonFeature`, which takes a bounding box
given by its north-east (`ne`) and south-west (`sw`) corners and returns a GeoJSON
Feature (RFC 7946, section 3.2) whose geometry is a Polygon (RFC 7946, section
3.1.6) with a single closed ring SW, NW, NE, SE, SW.

Each corner is a `LngLatLike`: either a `[lng, lat]` array or an object with `lng`
and `lat` fields. The inner helper `getLngLat` normalises a corner to a
`[lng, lat]` pair and throws `Error('Invalid LngLatLike object')` for an object
missing either field; the error escapes the conversion unchanged.

Modelling choices:

- `LngLatLike` is a sum type: `LngLatArray(first, second)` for the array shape,
  `LngLatObject(lng, lat)` with `Option` fields for the object shape, so that the
  missing-field error path exists in the model.
- The thrown error is a `Result` whose `Err` carries the message
  `"Invalid LngLatLike object"`.
- Coordinates are `real`: the code only copies them, never computes on them.
- The Feature and Polygon `type` members are string fields (`kind`, as `type` is a
  Dafny keyword); `properties` is a `map<string, string>` that is always empty.
- `IsBoxFeature` is an independent description of the output (tags, one ring,
  five positions, closed, edges alternately north-south and east-west), and
  `Corners` reads the two corners back out of such a Feature; the lemmas show
  that the conversion produces exactly the box Features.

Files: `wrappers.dfy` (Option, Result), `bbox_polygon.dfy` (the model).

## Model

| member | source | states |
|---|---|---|
| BoundingBoxPolygon.GetLngLat | convertLngLatLikeToPolygonFeature.ts:22-29 | normalisation succeeds exactly for an array or an object with both `lng` and `lat`; otherwise it fails with "Invalid LngLatLike object" |
| BoundingBoxPolygon.GetLngLatRoundTrip | convertLngLatLikeToPolygonFeature.ts:23-26 | the array form of a position is returned as that position, and the object form with both fields normalises to `[lng, lat]` of the same position |
| BoundingBoxPolygon.GetLngLatAcceptsOnlyBothForms | convertLngLatLikeToPolygonFeature.ts:22-29 | any point that normalises to a position is the array form or the complete object form of that position |
| BoundingBoxPolygon.Ring | convertLngLatLikeToPolygonFeature.ts:37-43 | the ring has five positions, first equals last, consecutive positions share lng, lat, lng, lat in turn, and positions 0 and 2 are the SW and NE corners |
| BoundingBoxPolygon.BoxFeature | convertLngLatLikeToPolygonFeature.ts:46-53 | the envelope is a Feature with a Polygon geometry holding exactly one such ring and empty properties, and its corners read back as the ones given |
| BoundingBoxPolygon.BoxFeatureFromCorners | convertLngLatLikeToPolygonFeature.ts:37-53 | every box Feature is exactly the one built from its own corners, so the ring is determined by SW and NE |
| BoundingBoxPolygon.ConvertToPolygonFeature | convertLngLatLikeToPolygonFeature.ts:11-54 | conversion succeeds iff both corners are valid points; on failure the error is "Invalid LngLatLike object"; on success the result is a box Feature whose corners are the normalised `sw` and `ne` |
| BoundingBoxPolygon.ConvertRingOrder | convertLngLatLikeToPolygonFeature.ts:33-43 | on success the coordinates are exactly one ring (swLng,swLat), (swLng,neLat), (neLng,neLat), (neLng,swLat), (swLng,swLat) |
| BoundingBoxPolygon.ConvertDependsOnlyOnCorners | convertLngLatLikeToPolygonFeature.ts:31-34 | two boxes whose corners normalise alike (both succeeding or both failing) convert to the same result |
| BoundingBoxPolygon.ConvertShapeIndependent | convertLngLatLikeToPolygonFeature.ts:22-34 | array and object forms of the same corners, mixed in any of the four ways, give the identical Feature |
| BoundingBoxPolygon.ConvertProducesExactlyBoxFeatures | convertLngLatLikeToPolygonFeature.ts:31-53 | a Feature is the result of some conversion if and only if it is a box Feature |

## Left out

- Runtime shape tests (`Array.isArray`, `'lng' in`, `'lat' in`) are replaced by the two-constructor input type; values of any other shape cannot be expressed, and neither can an object whose `lng` or `lat` key is present but holds `undefined`, which the code accepts because it only tests that the key exists.
- Arrays of a length other than two: the code returns any array unchecked and destructures its first two elements; the model's array case is exactly a pair.
- The GeoJSON and map-library types `Feature`, `Polygon`, `LngLatLike` and `BoundingBoxType` come from packages that are not part of this model; local datatypes stand for them.
- Floating-point semantics: coordinates are only copied, so they are modelled as `real`.
- Whether `sw` is really south-west of `ne`, antimeridian crossing (RFC 7946, section 3.1.9) and the counterclockwise exterior-ring rule (RFC 7946, section 3.1.6) are not checked by the code and are not claimed; for a proper box the fixed SW, NW, NE, SE order is clockwise.
- Object identity: the array branch returns the caller's array object, whose values are then copied into fresh ring arrays; values have no identity in the model.
