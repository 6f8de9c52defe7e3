/** The Convert button: merge the two uploads, choose the output size, encode, and keep both results. */
module Conversion {
  import opened Wrappers
  import opened Rounding
  import opened Encoding
  import opened Compositor
  import opened SizeFitter
  import opened ConversionSettings
  import opened CustomSizeInputs

  /** An upload slot is empty or holds a decoded image. */
  predicate Usable(slot: Option<ImageData>) {
    slot.Some? ==> Decoded(slot.value)
  }

  /** The encoder with the chosen format and quality fixed, as every trial of the search uses it. */
  function OracleFor(encoder: Encoder, format: string, quality: real): LengthOracle {
    (w, h) => encoder(format, quality, w, h)
  }

  /** The output dimensions `convertImage` chooses for the merged image. */
  function ChosenDimensions(s: Settings, merged: ImageData, encoder: Encoder): (d: Dimensions)
    requires Decoded(merged)
    // a target size runs the search on the merged image
    ensures s.size == CustomKB && Truthy(s.targetFileSize) ==>
      d == FittedDimensions(merged.width, merged.height, s.targetFileSize.value, OracleFor(encoder, s.format, s.quality))
    // a custom width and height are taken verbatim
    ensures s.size == Custom && Truthy(s.customWidth) && Truthy(s.customHeight) ==>
      d == Dimensions(s.customWidth.value, s.customHeight.value)
    // otherwise the merged image keeps its size
    ensures !(s.size == CustomKB && Truthy(s.targetFileSize)) && !(s.size == Custom && Truthy(s.customWidth) && Truthy(s.customHeight)) ==>
      d == DimensionsOf(merged)
    // only custom dimensions can enlarge the merged image
    ensures s.size != Custom ==> 0 <= d.width <= merged.width && 0 <= d.height <= merged.height
  {
    if s.size == CustomKB && Truthy(s.targetFileSize) then
      var oracle := OracleFor(encoder, s.format, s.quality);
      ResultWithinOriginal(Problem(merged.width, merged.height, oracle, s.targetFileSize.value * BytesPerKilobyte));
      FittedDimensions(merged.width, merged.height, s.targetFileSize.value, oracle)
    else if s.size == Custom && Truthy(s.customWidth) && Truthy(s.customHeight) then
      Dimensions(s.customWidth.value, s.customHeight.value)
    else
      DimensionsOf(merged)
  }

  /** The two artifacts one conversion produces: the merged image and the converted one. */
  datatype ConversionResult = ConversionResult(merged: ImageData, converted: ImageData)

  /** One conversion: refused unless both slots hold an image; otherwise the merged PNG and its re-encoding
      at the chosen dimensions in the chosen format and quality. */
  function Convert(image1: Option<ImageData>, image2: Option<ImageData>, s: Settings, encoder: Encoder): (r: Option<ConversionResult>)
    requires Usable(image1) && Usable(image2)
    ensures r.None? <==> image1.None? || image2.None?
    ensures r.Some? ==> r.value.merged == CreateMergedImage(image1.value, image2.value, encoder)
    ensures r.Some? ==> Decoded(r.value.merged) && r.value.merged.format == "png"
    ensures r.Some? ==> r.value.converted.format == s.format
  {
    if image1.None? || image2.None? then
      None
    else
      var merged := CreateMergedImage(image1.value, image2.value, encoder);
      var d := ChosenDimensions(s, merged, encoder);
      var size := EstimatedSize(encoder(s.format, s.quality, d.width, d.height));
      Some(ConversionResult(merged, ImageData(d.width, d.height, size, s.format)))
  }

  /** The converted image has the chosen dimensions, and its size is the estimate for the encoding at them. */
  lemma ConvertedCarriesChosenDimensions(image1: ImageData, image2: ImageData, s: Settings, encoder: Encoder)
    requires Decoded(image1) && Decoded(image2)
    ensures var c := Convert(Some(image1), Some(image2), s, encoder).value;
      && DimensionsOf(c.converted) == ChosenDimensions(s, c.merged, encoder)
      && c.converted.size == EstimatedSize(encoder(s.format, s.quality, c.converted.width, c.converted.height))
  {
  }

  /** In the 'original' mode the converted image is exactly as large as the merged one. */
  lemma OriginalModeKeepsMergedDimensions(image1: ImageData, image2: ImageData, s: Settings, encoder: Encoder)
    requires Decoded(image1) && Decoded(image2) && s.size == Original
    ensures var c := Convert(Some(image1), Some(image2), s, encoder).value;
      c.converted.width == c.merged.width && c.converted.height == c.merged.height
  {
  }

  /** The merged image is as tall as the taller upload and at least as wide as both uploads and the gap;
      two uploads of the same height are placed side by side unscaled. */
  lemma MergedImageLayout(image1: ImageData, image2: ImageData, s: Settings, encoder: Encoder)
    requires Decoded(image1) && Decoded(image2)
    ensures var m := Convert(Some(image1), Some(image2), s, encoder).value.merged;
      && (m.height == image1.height || m.height == image2.height)
      && image1.height <= m.height && image2.height <= m.height
      && image1.width + image2.width + Gap <= m.width
      && (image1.height == image2.height ==> m.width == image1.width + image2.width + Gap)
  {
    if image1.height == image2.height {
      EqualHeightsNeedNoScaling(image1.width, image2.width, image1.height);
    }
  }

  /** In the 'custom-kb' mode, with an encoder whose output never shrinks as the picture grows, the
      converted image meets the byte budget whenever some scale from the search's lowest trial upwards does:
      the final encode repeats the trial encode at the scale the search kept. */
  lemma TargetModeMeetsBudget(image1: ImageData, image2: ImageData, s: Settings, encoder: Encoder, scale: real)
    requires Decoded(image1) && Decoded(image2)
    requires s.size == CustomKB && Truthy(s.targetFileSize)
    requires Monotone(OracleFor(encoder, s.format, s.quality))
    requires var m := CreateMergedImage(image1, image2, encoder);
      var p := Problem(m.width, m.height, OracleFor(encoder, s.format, s.quality), s.targetFileSize.value * BytesPerKilobyte);
      MinScale + Width(Passes) <= scale <= MaxScale && Fits(p, scale)
    ensures var c := Convert(Some(image1), Some(image2), s, encoder).value;
      c.converted.size <= s.targetFileSize.value * BytesPerKilobyte
      && c.converted.width <= c.merged.width && c.converted.height <= c.merged.height
  {
    var m := CreateMergedImage(image1, image2, encoder);
    var p := Problem(m.width, m.height, OracleFor(encoder, s.format, s.quality), s.targetFileSize.value * BytesPerKilobyte);
    if !Fits(p, Run(p, Initial()).bestScale) {
      OverBudgetResultMeansUnreachable(p, scale);
    }
  }

  /** The two upload slots, `uploadedImages.image1` and `uploadedImages.image2`. */
  datatype Slot = Image1 | Image2

  /** The page's state that its event handlers read and write: the two upload slots, the settings, the
      lock checkbox (`lockChecked`), and the merged (`originalImageData`) and converted
      (`convertedImageData`) results. */
  class Session {
    var image1: Option<ImageData>
    var image2: Option<ImageData>
    var settings: Settings
    var lockChecked: bool
    var convertedImageData: Option<ImageData>
    var originalImageData: Option<ImageData>

    ghost predicate Valid()
      reads this
    {
      Usable(image1) && Usable(image2) && Usable(originalImageData)
    }

    /** The page as loaded: no uploads, the initial settings, nothing converted. `checked` is the lock
        checkbox's initial state, which the page markup decides. */
    constructor (checked: bool)
      ensures Valid()
      ensures image1 == None && image2 == None && settings == Defaults() && lockChecked == checked
      ensures convertedImageData == None && originalImageData == None
    {
      image1 := None;
      image2 := None;
      settings := Defaults();
      lockChecked := checked;
      convertedImageData := None;
      originalImageData := None;
    }

    /** An upload has been decoded: its record goes into its slot. Nothing else changes. */
    method OnImageLoaded(slot: Slot, image: ImageData)
      requires Valid() && Decoded(image)
      modifies this`image1, this`image2
      ensures Valid()
      ensures slot == Image1 ==> image1 == Some(image) && image2 == old(image2)
      ensures slot == Image2 ==> image2 == Some(image) && image1 == old(image1)
    {
      if slot == Image1 {
        image1 := Some(image);
      } else {
        image2 := Some(image);
      }
    }

    /** `removeImage`: the slot is emptied and the converted result is dropped; the merged result stays on
        record. */
    method RemoveImage(slot: Slot)
      requires Valid()
      modifies this`image1, this`image2, this`convertedImageData
      ensures Valid()
      ensures slot == Image1 ==> image1 == None && image2 == old(image2)
      ensures slot == Image2 ==> image2 == None && image1 == old(image1)
      ensures convertedImageData == None
    {
      if slot == Image1 {
        image1 := None;
      } else {
        image2 := None;
      }
      convertedImageData := None;
    }

    /** A choice in the format dropdown. */
    method SelectFormat(format: string)
      requires Valid()
      modifies this`settings
      ensures Valid()
      ensures settings == old(settings).(format := format)
    {
      settings := settings.(format := format);
    }

    /** A choice in the size dropdown. */
    method SelectSize(mode: SizeMode)
      requires Valid()
      modifies this`settings
      ensures Valid()
      ensures settings == old(settings).(size := mode)
    {
      settings := settings.(size := mode);
    }

    /** A choice in the quality dropdown, the item's value parsed as a number. */
    method SelectQuality(quality: real)
      requires Valid()
      modifies this`settings
      ensures Valid()
      ensures settings == old(settings).(quality := quality)
    {
      settings := settings.(quality := quality);
    }

    /** `resetAll`: both slots emptied, the settings back to their initial values, the converted result
        dropped. The lock checkbox and the merged result are left as they are. */
    method ResetAll()
      requires Valid()
      modifies this`image1, this`image2, this`settings, this`convertedImageData
      ensures Valid()
      ensures image1 == None && image2 == None && settings == Defaults() && convertedImageData == None
      ensures lockChecked == old(lockChecked) && originalImageData == old(originalImageData)
    {
      RemoveImage(Image1);
      RemoveImage(Image2);
      settings := Defaults();
      convertedImageData := None;
    }

    /** `convertImage`: refuse unless both slots hold an image; otherwise record the merged image and its
        conversion. Uploads and settings are left as they are. */
    method ConvertImage(encoder: Encoder) returns (refused: bool)
      requires Valid()
      modifies this`convertedImageData, this`originalImageData
      ensures Valid()
      ensures refused <==> image1.None? || image2.None?
      ensures refused ==> convertedImageData == old(convertedImageData) && originalImageData == old(originalImageData)
      ensures !refused ==> originalImageData.Some? && convertedImageData.Some?
      ensures !refused ==>
        Convert(image1, image2, settings, encoder) == Some(ConversionResult(originalImageData.value, convertedImageData.value))
    {
      if image1.None? || image2.None? {
        return true;
      }
      var mergedData := CreateMergedImage(image1.value, image2.value, encoder);
      var newSize: Dimensions;
      if settings.size == CustomKB && Truthy(settings.targetFileSize) {
        ghost var trials: seq<real>;
        newSize, trials := FindScaleForTargetFileSize(mergedData.width, mergedData.height,
          settings.targetFileSize.value, OracleFor(encoder, settings.format, settings.quality));
      } else if settings.size == Custom && Truthy(settings.customWidth) && Truthy(settings.customHeight) {
        newSize := Dimensions(settings.customWidth.value, settings.customHeight.value);
      } else {
        newSize := DimensionsOf(mergedData);
      }
      var estimatedSize := EstimatedSize(encoder(settings.format, settings.quality, newSize.width, newSize.height));
      convertedImageData := Some(ImageData(newSize.width, newSize.height, estimatedSize, settings.format));
      originalImageData := Some(mergedData);
      refused := false;
    }

    /** The width field's `input` event; the lock is the checkbox. */
    method OnCustomWidthInput(entered: Option<int>)
      requires Valid()
      modifies this`settings
      ensures Valid()
      ensures settings == AfterWidthInput(old(settings), lockChecked, originalImageData, entered)
    {
      settings := AfterWidthInput(settings, lockChecked, originalImageData, entered);
    }

    /** The height field's `input` event; the lock is the checkbox. */
    method OnCustomHeightInput(entered: Option<int>)
      requires Valid()
      modifies this`settings
      ensures Valid()
      ensures settings == AfterHeightInput(old(settings), lockChecked, originalImageData, entered)
    {
      settings := AfterHeightInput(settings, lockChecked, originalImageData, entered);
    }

    /** The lock checkbox's `change` event: the checkbox takes the new state and the settings copy it. */
    method OnMaintainAspectRatioChange(checked: bool)
      requires Valid()
      modifies this`settings, this`lockChecked
      ensures Valid()
      ensures lockChecked == checked
      ensures settings == old(settings).(maintainAspectRatio := checked)
    {
      lockChecked := checked;
      settings := settings.(maintainAspectRatio := checked);
    }

    /** The target-size field's `input` event: the kilobytes are stored as `parseInt(..) || null`. */
    method OnTargetFileSizeInput(entered: Option<int>)
      requires Valid()
      modifies this`settings
      ensures Valid()
      ensures settings == old(settings).(targetFileSize := OrNull(entered))
    {
      settings := settings.(targetFileSize := OrNull(entered));
    }
  }
}
