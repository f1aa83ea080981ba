/** The scan record of the app: the photo a capture produced and the text
    decoded from its QR code. */
module Items {

  /** An opaque reference to the captured photo; only compared for equality. */
  datatype Uri = Uri(location: string)

  /** One QR scan. The Kotlin definition of `QRItem` is not part of this
      model; it is assumed to compare by value, so that the `equals` used by
      the list operations holds exactly when both fields are equal. */
  datatype QRItem = QRItem(uri: Uri, value: string)
}
