/** Avatar fallbacks: a missing or blank image url shows `/no-profile.png`. The chat
    bubble, the contact list and the chat page add a `?cb=<time>` cache-buster; the
    group forms use the url as it is. */
module Avatar {
  import opened Wrappers
  import opened Text

  const NoProfile: string := "/no-profile.png"

  /** `url && url.trim() !== "" ? `${url}?cb=${Date.now()}` : "/no-profile.png"`,
      with the clock reading passed in. */
  function WithCacheBust(url: Option<string>, now: nat): (r: string)
    ensures url.None? || IsBlank(url.value) ==> r == NoProfile
    ensures url.Some? && !IsBlank(url.value) ==> r == url.value + "?cb=" + Decimal(now)
  {
    if url.Some? then
      TrimEmptyIff(url.value);
      if Trim(url.value) != "" then url.value + "?cb=" + Decimal(now) else NoProfile
    else NoProfile
  }

  /** `url && url.trim() !== "" ? url : "/no-profile.png"` */
  function OrDefault(url: Option<string>): (r: string)
    ensures url.None? || IsBlank(url.value) ==> r == NoProfile
    ensures url.Some? && !IsBlank(url.value) ==> r == url.value
  {
    if url.Some? then
      TrimEmptyIff(url.value);
      if Trim(url.value) != "" then url.value else NoProfile
    else NoProfile
  }
}
