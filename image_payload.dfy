/**
 * Image payload helpers: mime-hint normalisation, magic-byte detection on
 * the decoded head of a base64 payload, the hint-then-detection-then-default
 * resolution, and the `data:` URL of an image. Base64 decoding
 * (`base64.b64decode(..., validate=True)`) is a parameter: `None` stands for
 * the exception it raises on invalid input.
 */
module ImagePayload {
  import opened Wrappers
  import Text

  newtype byte = x: int | 0 <= x < 256

  const DefaultImageMime := "image/png"

  const SupportedMimes: set<string> := {"image/png", "image/jpeg", "image/webp", "image/gif", "image/bmp"}

  /** How many base64 characters detection decodes. */
  const HeadLength := 96

  /** The magic signatures, tried in this order. */
  const MagicSignatures: seq<(seq<byte>, string)> := [
    ([0x89, 0x50, 0x4E, 0x47, 0x0D, 0x0A, 0x1A, 0x0A], "image/png"),
    ([0xFF, 0xD8, 0xFF], "image/jpeg"),
    ([0x47, 0x49, 0x46, 0x38, 0x37, 0x61], "image/gif"),   // GIF87a
    ([0x47, 0x49, 0x46, 0x38, 0x39, 0x61], "image/gif"),   // GIF89a
    ([0x42, 0x4D], "image/bmp")                            // BM
  ]

  const RiffPrefix: seq<byte> := [0x52, 0x49, 0x46, 0x46]   // RIFF
  const WebpTag: seq<byte> := [0x57, 0x45, 0x42, 0x50]      // WEBP

  predicate BytesStartWith(s: seq<byte>, prefix: seq<byte>) {
    |prefix| <= |s| && s[..|prefix|] == prefix
  }

  /**
   * `_normalize_mime`: an absent or empty hint is `None`; otherwise the hint
   * stripped and lower-cased, with "image/jpg" read as "image/jpeg". A hint
   * of only whitespace gives the empty text, not `None`.
   */
  function NormalizeMime(value: Option<string>): (r: Option<string>)
    ensures value.None? || value.value == [] <==> r.None?
    ensures r.Some? ==> Text.IsNormalized(r.value)
    ensures r.Some? && r.value != "image/jpeg" ==> r.value == Text.StripLower(value.value)
  {
    if value.None? || value.value == [] then None
    else
      var n := Text.StripLower(value.value);
      if n == "image/jpg" then JpegIsNormalized(); Some("image/jpeg") else Some(n)
  }

  lemma JpegIsNormalized()
    ensures Text.IsNormalized("image/jpeg")
  {
    var s := "image/jpeg";
    assert !Text.IsSpace(s[0]) && !Text.IsSpace(s[|s| - 1]);
    assert Text.IsStripped(s);
    assert Text.IsLower(s);
  }

  /**
   * The position of the first signature at or after `from` that the header
   * starts with; `|signatures|` when none does.
   */
  function MatchIndex(header: seq<byte>, signatures: seq<(seq<byte>, string)>, from: nat): (k: nat)
    requires from <= |signatures|
    ensures from <= k <= |signatures|
    ensures k < |signatures| ==> BytesStartWith(header, signatures[k].0)
    ensures forall j :: from <= j < k ==> !BytesStartWith(header, signatures[j].0)
    decreases |signatures| - from
  {
    if from == |signatures| then from
    else if BytesStartWith(header, signatures[from].0) then from
    else MatchIndex(header, signatures, from + 1)
  }

  /** The mime of the first signature the header starts with. */
  function FirstSignature(header: seq<byte>): Option<string> {
    var k := MatchIndex(header, MagicSignatures, 0);
    if k < |MagicSignatures| then Some(MagicSignatures[k].1) else None
  }

  /** The WEBP test: a RIFF container of at least 12 bytes with "WEBP" at bytes 8 to 11. */
  predicate IsWebp(header: seq<byte>) {
    BytesStartWith(header, RiffPrefix) && |header| >= 12 && header[8..12] == WebpTag
  }

  /** The mime a decoded header shows: the signatures in order, then WEBP. */
  function HeaderMime(header: seq<byte>): (r: Option<string>)
    ensures r.Some? ==> r.value in SupportedMimes
    ensures IsWebp(header) ==> r.Some?
  {
    var m := FirstSignature(header);
    if m.Some? then m
    else if IsWebp(header) then Some("image/webp")
    else None
  }

  /** The first `n` characters of `s`, as `s[:n]` takes them. */
  function Head(s: string, n: nat): (r: string)
    ensures |r| == if |s| < n then |s| else n
    ensures r == s[..|r|]
  {
    if |s| <= n then s else s[..n]
  }

  /** `detect_image_mime`: the header mime of the decoded first 96 characters; `None` when they do not decode. */
  function DetectImageMime(imageB64: string, decode: string -> Option<seq<byte>>): (r: Option<string>)
    ensures decode(Head(imageB64, HeadLength)).None? ==> r.None?
    ensures r.Some? ==> r.value in SupportedMimes
  {
    var header := decode(Head(imageB64, HeadLength));
    if header.None? then None else HeaderMime(header.value)
  }

  /** `resolve_image_mime`: a supported hint as normalised, else the detected mime, else the default. */
  function ResolveImageMime(hint: Option<string>, imageB64: string, decode: string -> Option<seq<byte>>): (r: string)
    ensures r in SupportedMimes
    ensures NormalizeMime(hint).Some? && NormalizeMime(hint).value in SupportedMimes ==> r == NormalizeMime(hint).value
    ensures !(NormalizeMime(hint).Some? && NormalizeMime(hint).value in SupportedMimes) ==>
              r == DetectImageMime(imageB64, decode).GetOr(DefaultImageMime)
  {
    var normalized := NormalizeMime(hint);
    if normalized.Some? && normalized.value != [] && normalized.value in SupportedMimes then normalized.value
    else
      var detected := DetectImageMime(imageB64, decode);
      if detected.Some? && detected.value != [] then detected.value else DefaultImageMime
  }

  const DataPrefix := "data:"
  const Base64Marker := ";base64,"

  /** `to_data_url`. */
  function ToDataUrl(imageB64: string, mime: string): string {
    DataPrefix + mime + Base64Marker + imageB64
  }

  /**
   * Reads a `data:` URL back into its mime and payload: the mime runs up to
   * the first ';'.
   */
  function ParseDataUrl(url: string): (r: Option<(string, string)>)
  {
    if !Text.StartsWith(url, DataPrefix) then None
    else
      var rest := url[|DataPrefix|..];
      var k := Text.FindChar(rest, ';');
      if k < 0 || !Text.StartsWith(rest[k..], Base64Marker) then None
      else Some((rest[..k], rest[k + |Base64Marker|..]))
  }

  /** A mime without ';' and its payload come back out of their data URL. */
  lemma DataUrlRoundTrip(imageB64: string, mime: string)
    requires forall i :: 0 <= i < |mime| ==> mime[i] != ';'
    ensures ParseDataUrl(ToDataUrl(imageB64, mime)) == Some((mime, imageB64))
  {
    var url := ToDataUrl(imageB64, mime);
    assert url[..|DataPrefix|] == DataPrefix;
    var rest := url[|DataPrefix|..];
    assert rest == mime + Base64Marker + imageB64;
    var k := Text.FindChar(rest, ';');
    assert rest[|mime|] == ';';
    assert forall j :: 0 <= j < |mime| ==> rest[j] == mime[j];
    assert k == |mime|;
    assert rest[..k] == mime;
    assert rest[k..] == Base64Marker + imageB64;
    assert rest[k..][..|Base64Marker|] == Base64Marker;
    assert rest[k + |Base64Marker|..] == imageB64;
  }

  /** A header that starts with a signature is recognised as that signature's image kind. */
  lemma SignatureDetected(header: seq<byte>, i: nat)
    requires i < |MagicSignatures| && BytesStartWith(header, MagicSignatures[i].0)
    ensures HeaderMime(header) == Some(MagicSignatures[i].1)
  {
    var j := MatchIndex(header, MagicSignatures, 0);
    if j < |MagicSignatures| && j != i {
      NoTwoSignatures(header, i, j);
    }
  }

  /** No header starts with two different signatures: they differ in their first or fifth byte. */
  lemma NoTwoSignatures(header: seq<byte>, i: nat, j: nat)
    requires i < |MagicSignatures| && j < |MagicSignatures| && i != j
    ensures !(BytesStartWith(header, MagicSignatures[i].0) && BytesStartWith(header, MagicSignatures[j].0))
  {
    var a := MagicSignatures[i].0;
    var b := MagicSignatures[j].0;
    assert BytesStartWith(header, a) ==> header[0] == a[0] && (|a| > 4 ==> header[4] == a[4]);
    assert BytesStartWith(header, b) ==> header[0] == b[0] && (|b| > 4 ==> header[4] == b[4]);
  }

  /** WEBP is reported exactly for a WEBP container, since no signature starts with "RIFF". */
  lemma WebpDetected(header: seq<byte>)
    ensures HeaderMime(header) == Some("image/webp") <==> IsWebp(header)
  {
    if IsWebp(header) {
      forall i | 0 <= i < |MagicSignatures| ensures !BytesStartWith(header, MagicSignatures[i].0) {
        assert header[0] == 0x52;
      }
    }
  }

  /** The hint wins only when supported; an unsupported hint falls through to detection. */
  lemma UnsupportedHintIgnored(hint: Option<string>, imageB64: string, decode: string -> Option<seq<byte>>)
    requires NormalizeMime(hint).None? || NormalizeMime(hint).value !in SupportedMimes
    ensures ResolveImageMime(hint, imageB64, decode) == ResolveImageMime(None, imageB64, decode)
  {
  }

  /** An already normalised mime normalises to itself. */
  lemma NormalizeMimeIdempotent(value: Option<string>)
    requires NormalizeMime(value).Some? && NormalizeMime(value).value != []
    ensures NormalizeMime(NormalizeMime(value)) == NormalizeMime(value)
  {
  }
}
