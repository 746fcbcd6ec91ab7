/**
 * The product record that the matcher emits and the generation service
 * consumes (the fields of `ProductMetadata` in app/models/metadata.py), with
 * the `pose` and `environment` fields that the generation service reads.
 */
module Metadata {
  import opened Base

  /** The absence marker that stands in for a missing spreadsheet column. */
  const NA: string := "N/A"

  datatype ProductMetadata = ProductMetadata(
    code: string,
    name: string,
    productType: string,
    gender: string,
    sport: string,
    pose: string,
    environment: string,
    imageFilename: Option<string>,
    status: string,
    resultUrl: Option<string>)

  /**
   * A record built with only the fields the matcher passes: `pose`,
   * `environment` and `status` take their defaults and there is no result yet.
   */
  function Record(code: string, name: string, productType: string, gender: string, sport: string,
                  imageFilename: string): (m: ProductMetadata)
    ensures m.pose == NA && m.environment == NA && m.status == "pending" && m.resultUrl == None
    ensures m.code == code && m.name == name && m.imageFilename == Some(imageFilename)
  {
    ProductMetadata(code, name, productType, gender, sport, NA, NA, Some(imageFilename), "pending", None)
  }
}
