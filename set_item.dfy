/**
 * The logo rule of the expansion tile (`SetItem`), which the series screens
 * repeat for series logos: no logo gives no image; a logo that already names
 * an image format is used as it is; any other logo gets `.webp` appended.
 */
module SetItem {
  import opened Common
  import opened Text

  predicate HasImageExtension(logo: string) {
    Contains(logo, ".webp") || Contains(logo, ".png") || Contains(logo, ".jpg")
  }

  /** `getLogoUrl`; `None` is `null`. */
  function LogoUrl(logo: Option<string>): (r: Option<string>)
    ensures logo.None? || logo.value == "" ==> r.None?
    ensures logo.Some? && logo.value != "" && HasImageExtension(logo.value) ==> r == logo
    ensures logo.Some? && logo.value != "" && !HasImageExtension(logo.value) ==> r == Some(logo.value + ".webp")
  {
    if logo.None? || logo.value == "" then None
    else if HasImageExtension(logo.value) then logo
    else Some(logo.value + ".webp")
  }

  /** A logo URL that is shown always names an image format. */
  lemma LogoUrlHasExtension(logo: Option<string>)
    ensures var r := LogoUrl(logo); r.Some? ==> r.value != "" && HasImageExtension(r.value)
  {
    if logo.Some? && logo.value != "" && !HasImageExtension(logo.value) {
      ContainsSuffix(logo.value, ".webp");
    }
  }

  /** Applying `getLogoUrl` to its own result changes nothing. */
  lemma LogoUrlIdempotent(logo: Option<string>)
    ensures LogoUrl(LogoUrl(logo)) == LogoUrl(logo)
  {
    LogoUrlHasExtension(logo);
  }
}
