/** Length limits on stored text (internal/storage/repository.go). A `char` is one Go rune. */
module Limits {
  function ClampRunes(s: string, max: nat): (r: string)
    ensures |r| <= max && r <= s
    ensures |s| <= max ==> r == s
    ensures |s| > max ==> |r| == max
  {
    if |s| <= max then s else s[..max]
  }
}
