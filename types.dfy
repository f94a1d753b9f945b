/**
 * The record types of the farm dashboard (types.ts), plus the Option type
 * that stands for JavaScript's `undefined`/`null` results.
 */
module Types {

  /** A value that may be absent: `Array.prototype.find` misses, a collaborator that returned null. */
  datatype Option<T> = None | Some(value: T)

  /** A geographic point in degrees. */
  datatype Coordinate = Coordinate(lat: real, lng: real)

  /** Static reference data for a crop; `waterNeedsPerDay` is in litres per square metre. */
  datatype CropProfile = CropProfile(id: string, name: string, waterNeedsPerDay: real, growthPeriod: int)

  /** Static reference data for a soil; `retentionFactor` multiplies the water demand. */
  datatype SoilProfile = SoilProfile(id: string, name: string, retentionFactor: real, description: string)

  /** The three irrigation modes the controls can select. */
  datatype IrrigationStatus = Off | On | Auto

  /** The dashboard's farm record: the traced boundary, its area and the current selections. */
  datatype FarmState = FarmState(
    points: seq<Coordinate>,
    areaSqm: real,
    selectedCrop: string,
    selectedSoil: string,
    irrigationStatus: IrrigationStatus,
    isRecording: bool)
}
