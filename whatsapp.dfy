/** The `wa.me` hand-off link that every "talk to us" button of the site
    opens: the business number, then the pre-filled text as encoded by
    `encodeURIComponent`. */
module WhatsApp {
  import opened Text

  const Number := "527202533388"

  /** `https://wa.me/527202533388?text=`. */
  const Base := "https://wa.me/527202533388?text="

  /** The link for an encoded message. The encoded message can be read back
      from the link, so two different messages never share a link. */
  function Link(encoded: string): (r: string)
    ensures StartsWith(r, Base) && r[|Base|..] == encoded
  {
    "https://wa.me/" + Number + "?text=" + encoded
  }
}
