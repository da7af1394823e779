/**
 * The fixed sensor catalog of the focal-length simulator: each entry is keyed
 * by the name shown in the sensor selector and gives the crop factor and the
 * sensor's width and height in millimetres.
 */
module Sensors {

  /** One catalog entry: crop factor relative to full frame, size in mm. */
  datatype Sensor = Sensor(cropFactor: real, width: real, height: real)

  const FullFrameKey: string := "Plein format (35mm)"
  const ApsCCanonKey: string := "APS-C (Canon)"
  const ApsCNikonSonyKey: string := "APS-C (Nikon/Sony)"
  const MicroFourThirdsKey: string := "Micro 4/3"
  const OneInchKey: string := "1 pouce"

  /** The five sensors offered by the selector, with exact decimal crop factors. */
  const Catalog: map<string, Sensor> := map[
    FullFrameKey := Sensor(1.0, 36.0, 24.0),
    ApsCCanonKey := Sensor(1.6, 22.3, 14.9),
    ApsCNikonSonyKey := Sensor(1.5, 23.6, 15.6),
    MicroFourThirdsKey := Sensor(2.0, 17.3, 13.0),
    OneInchKey := Sensor(2.7, 13.2, 8.8)
  ]

  /** The crop factors that occur in the catalog. */
  const CatalogCrops: set<real> := {1.0, 1.6, 1.5, 2.0, 2.7}

  /** The crop factor of a catalog key. */
  function CropOf(key: string): (c: real)
    requires key in Catalog
    ensures c in CatalogCrops
    ensures c >= 1.0
  {
    Catalog[key].cropFactor
  }

  /**
   * The catalog is well formed: exactly five keys, every entry has a
   * positive crop factor, width and height, and the full-frame entry has
   * crop factor exactly 1.
   */
  lemma CatalogWellFormed()
    ensures Catalog.Keys == {FullFrameKey, ApsCCanonKey, ApsCNikonSonyKey, MicroFourThirdsKey, OneInchKey}
    ensures |Catalog| == 5
    ensures forall k :: k in Catalog ==>
      Catalog[k].cropFactor > 0.0 && Catalog[k].width > 0.0 && Catalog[k].height > 0.0
    ensures FullFrameKey in Catalog && Catalog[FullFrameKey].cropFactor == 1.0
  {
    var keys := {FullFrameKey, ApsCCanonKey, ApsCNikonSonyKey, MicroFourThirdsKey, OneInchKey};
    assert Catalog.Keys == keys;
    assert |keys| == 5;
  }
}
