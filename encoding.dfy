/** Images as the page sees them, and the size it estimates for an encoded image. */
module Encoding {
  import opened Rounding

  /** Width and height in pixels. */
  datatype Dimensions = Dimensions(width: int, height: int)

  /** An uploaded, merged or converted image: its dimensions, its size in bytes and its format name.
      The data URL itself is not modelled: only its length matters, and the encoder below supplies it. */
  datatype ImageData = ImageData(width: int, height: int, size: int, format: string)

  /** The browser's canvas encoder, abstracted: for a format name, a quality and the dimensions the merged
      picture is drawn at, the number of base64 characters after the comma of `canvas.toDataURL`. */
  type Encoder = (string, real, int, int) -> nat

  const BytesPerKilobyte: int := 1024

  /** A decoded image has a positive width and height. */
  predicate Decoded(image: ImageData) {
    image.width > 0 && image.height > 0
  }

  function DimensionsOf(image: ImageData): Dimensions {
    Dimensions(image.width, image.height)
  }

  /** `Math.round((base64Length * 3) / 4)`: four base64 characters carry three bytes, so the estimate is
      within half a byte of three quarters of the payload length. */
  function EstimatedSize(base64Length: nat): (size: nat)
    ensures 4 * size <= 3 * base64Length + 2
    ensures 3 * base64Length < 4 * size + 2
  {
    Round((base64Length * 3) as real / 4.0)
  }

  /** A longer payload never gives a smaller estimate. */
  lemma EstimatedSizeMonotone(shorter: nat, longer: nat)
    requires shorter <= longer
    ensures EstimatedSize(shorter) <= EstimatedSize(longer)
  {
    RoundMonotone((shorter * 3) as real / 4.0, (longer * 3) as real / 4.0);
  }

  /** A payload of whole four-character groups is estimated exactly: three bytes per group. */
  lemma EstimatedSizeOfWholeGroups(groups: nat)
    ensures EstimatedSize(4 * groups) == 3 * groups
  {
  }
}
