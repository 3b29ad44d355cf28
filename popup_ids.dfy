/**
 * The element ids of a popup (docs/modules.js, Popup constructor): every sub-element's id is the
 * popup's id followed by a fixed suffix, and a drag recovers the popup's id from its bar's id by
 * dropping the last four characters of an id that ends in "-bar".
 */
module PopupIds {

  const BAR_SUFFIX: string := "-bar"
  const TITLE_SUFFIX: string := "-title"
  const CLOSE_SUFFIX: string := "-close"
  const CONTENT_SUFFIX: string := "-content"

  function BarId(id: string): string { id + BAR_SUFFIX }
  function TitleId(id: string): string { id + TITLE_SUFFIX }
  function CloseId(id: string): string { id + CLOSE_SUFFIX }
  function ContentId(id: string): string { id + CONTENT_SUFFIX }

  /** String.prototype.endsWith. */
  predicate EndsWith(s: string, suffix: string) {
    |suffix| <= |s| && s[|s| - |suffix|..] == suffix
  }

  /** id.substring(0, id.length - 4), applied only to an id ending in "-bar". */
  function StripBar(s: string): (r: string)
    requires EndsWith(s, BAR_SUFFIX)
    ensures |r| == |s| - |BAR_SUFFIX|
    ensures forall i :: 0 <= i < |r| ==> r[i] == s[i]
  {
    s[..|s| - 4]
  }

  /** The bar id of a popup passes the "-bar" test and strips back to the popup's id. */
  lemma BarIdRoundTrip(id: string)
    ensures EndsWith(BarId(id), BAR_SUFFIX)
    ensures StripBar(BarId(id)) == id
  {
  }

  /** Every id that passes the "-bar" test is the bar id of the id that stripping yields. */
  lemma StripBarInverse(s: string)
    requires EndsWith(s, BAR_SUFFIX)
    ensures BarId(StripBar(s)) == s
  {
  }

  /** Two popups with different ids have different bar ids. */
  lemma BarIdInjective(a: string, b: string)
    requires BarId(a) == BarId(b)
    ensures a == b
  {
    BarIdRoundTrip(a);
    BarIdRoundTrip(b);
  }

  /**
   * Pressing the title, the close button or the content area (whose ids carry their own suffix)
   * never passes the "-bar" test, so only the bar element itself starts a drag.
   */
  lemma OnlyBarStartsDrag(id: string)
    ensures !EndsWith(TitleId(id), BAR_SUFFIX)
    ensures !EndsWith(CloseId(id), BAR_SUFFIX)
    ensures !EndsWith(ContentId(id), BAR_SUFFIX)
  {
    var t, c, n := TitleId(id), CloseId(id), ContentId(id);
    assert t[|t| - 1] == 'e';
    assert c[|c| - 1] == 'e';
    assert n[|n| - 1] == 't';
  }
}
