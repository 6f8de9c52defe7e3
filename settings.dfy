/** The user's conversion choices, as the page keeps them between events. */
module ConversionSettings {
  import opened Wrappers

  /** The size dropdown: keep the merged size ('original', and any other value), enter a width and height
      ('custom'), or aim at a file size in kilobytes ('custom-kb'). */
  datatype SizeMode = Original | Custom | CustomKB

  /** The unset custom values are JavaScript `null`. */
  datatype Settings = Settings(
    format: string,
    size: SizeMode,
    quality: real,
    customWidth: Option<int>,
    customHeight: Option<int>,
    maintainAspectRatio: bool,
    targetFileSize: Option<int>)

  /** The settings the page starts with and returns to on reset. */
  function Defaults(): Settings {
    Settings("jpeg", Original, 0.9, None, None, true, None)
  }

  /** JavaScript truthiness of a setting that holds a number or `null`: set and not zero. */
  predicate Truthy(v: Option<int>) {
    v.Some? && v.value != 0
  }

  /** `parseInt(field.value) || null`, with `entered` the parsed field (None for an empty field): a zero is
      falsy and is stored as `null`, so a stored value is either absent or non-zero. */
  function OrNull(entered: Option<int>): (stored: Option<int>)
    ensures stored.Some? ==> stored == entered && stored.value != 0
    ensures Truthy(stored) <==> Truthy(entered)
  {
    if Truthy(entered) then entered else None
  }
}
