/**
 * The values the app passes between its parts: the payload category, the
 * history record and what the barcode decoder reports for one image.
 */
module QrModel {
  import opened Wrappers

  /** The payload category used to pick the result dialog's layout. */
  datatype QrCodeType = URL | WIFI | TEXT

  /** One row of the scan history. */
  datatype QrData = QrData(
    id: string,
    content: string,
    qrType: QrCodeType,
    timestamp: int,
    isFavorite: bool)

  /**
   * A freshly created history record, as the `QrData` constructor builds it
   * with its defaults: the id (a random UUID) and the creation time are
   * supplied by the caller, and a new record is never a favourite.
   */
  function NewQrData(id: string, content: string, qrType: QrCodeType, timestamp: int): (d: QrData)
    ensures d.content == content && d.qrType == qrType
    ensures d.id == id && d.timestamp == timestamp && !d.isFavorite
  {
    QrData(id, content, qrType, timestamp, false)
  }

  /**
   * What the barcode decoder reports for one image: the raw values of the
   * barcodes it found, in order (each may be null), or a failed task.
   */
  datatype Detection = Detected(rawValues: seq<Option<string>>) | DetectionFailed

  /** `barcodes.firstOrNull()?.rawValue` on a successful detection. */
  function FirstRawValue(d: Detection): (r: Option<string>)
    ensures r.Some? <==> d.Detected? && |d.rawValues| > 0 && d.rawValues[0].Some?
    ensures r.Some? ==> r == d.rawValues[0]
  {
    if d.Detected? && |d.rawValues| > 0 then d.rawValues[0] else None
  }
}
