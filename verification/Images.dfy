/**
 The MIME decision of the file upload handler.  Content sniffing is foreign code, so its answer is a
 parameter; what the handler does with the answer is modelled in full.
 */
module Images {
  newtype Byte = b: int | 0 <= b < 256
  type Bytes = seq<Byte>

  const OCTET_STREAM: string := "application/octet-stream"
  const PEEK_LIMIT: nat := 512

  const SUPPORTED: seq<string> := ["image/png", "image/jpeg", "image/gif", "image/webp", "image/bmp"]

  const DANGEROUS: seq<string> := ["text/html", "text/xml", "image/svg+xml", "application/xhtml+xml"]

  predicate IsImage(mime: string) {
    mime in SUPPORTED
  }

  const PNG: Bytes := [0x89, 0x50, 0x4E, 0x47, 0x0D, 0x0A, 0x1A, 0x0A]
  const JPEG: Bytes := [0xFF, 0xD8, 0xFF]
  const GIF87: Bytes := [0x47, 0x49, 0x46, 0x38, 0x37, 0x61]
  const GIF89: Bytes := [0x47, 0x49, 0x46, 0x38, 0x39, 0x61]
  const BMP: Bytes := [0x42, 0x4D]
  const RIFF: Bytes := [0x52, 0x49, 0x46, 0x46]
  const WEBP: Bytes := [0x57, 0x45, 0x42, 0x50]

  const MAGIC: map<string, seq<Bytes>> := map[
    "image/png" := [PNG],
    "image/jpeg" := [JPEG],
    "image/gif" := [GIF87, GIF89],
    "image/bmp" := [BMP]
  ]

  /** The signature of each supported type, stated on the content itself. */
  predicate HasSignature(mime: string, content: Bytes) {
    if mime == "image/png" then PNG <= content
    else if mime == "image/jpeg" then JPEG <= content
    else if mime == "image/gif" then GIF87 <= content || GIF89 <= content
    else if mime == "image/bmp" then BMP <= content
    else mime == "image/webp" && |content| >= 12 && content[..4] == RIFF && content[8..12] == WEBP
  }

  /** The scan over the signature table, as the handler performs it. */
  method ValidateImageMagic(mime: string, peek: Bytes) returns (valid: bool)
    ensures valid <==> |peek| >= 4 && HasSignature(mime, peek)
  {
    if |peek| < 4 {
      return false;
    }
    if mime == "image/webp" {
      return |peek| >= 12 && peek[0..4] == RIFF && peek[8..12] == WEBP;
    }
    if mime !in MAGIC {
      return false;
    }
    var sigs := MAGIC[mime];
    for i := 0 to |sigs|
      invariant forall j :: 0 <= j < i ==> !(sigs[j] <= peek)
    {
      if |peek| >= |sigs[i]| && peek[..|sigs[i]|] == sigs[i] {
        return true;
      }
    }
    assert mime == "image/gif" ==> !(sigs[0] <= peek) && !(sigs[1] <= peek);
    assert mime != "image/gif" ==> !(sigs[0] <= peek);
    return false;
  }

  /** The stored MIME type, given the sniffer's answer for the peeked prefix. */
  function Decide(sniffed: string, peek: Bytes): (mime: string)
    ensures IsImage(mime) ==> mime == sniffed && HasSignature(mime, peek)
    ensures mime !in DANGEROUS
  {
    var safe := if sniffed in DANGEROUS then OCTET_STREAM else sniffed;
    if IsImage(safe) && !(|peek| >= 4 && HasSignature(safe, peek)) then OCTET_STREAM else safe
  }

  /**
   Exactly which answers of the sniffer are stored as they are: all but the four bare strings and the
   images that fail their check.  A type with a parameter is not one of the four, so sniffed HTML or
   XML, which comes with "; charset=utf-8", keeps its type; it is no image type and never inline.
   */
  lemma OnlyBareTypesAreReplaced(sniffed: string, peek: Bytes)
    ensures Decide(sniffed, peek) == sniffed <==>
              sniffed !in DANGEROUS && (IsImage(sniffed) ==> |peek| >= 4 && HasSignature(sniffed, peek))
    ensures Decide("text/html; charset=utf-8", peek) == "text/html; charset=utf-8"
    ensures Decide("text/xml; charset=utf-8", peek) == "text/xml; charset=utf-8"
    ensures !IsImage("text/html; charset=utf-8") && !IsImage("text/xml; charset=utf-8")
    ensures forall bare :: bare in ["text/html", "text/xml", "image/svg+xml", "application/xhtml+xml"] ==>
              Decide(bare, peek) == "application/octet-stream"
  {
    var html, xml := "text/html; charset=utf-8", "text/xml; charset=utf-8";
    assert html[9] == ';' && xml[8] == ';';
    assert forall s :: s in DANGEROUS || s in SUPPORTED ==> |s| < 22;
  }

  /** io.MultiReader(bytes.NewReader(peek), rest) after one Read consumed `n` bytes of the body. */
  function Recombine(body: Bytes, n: nat): (content: Bytes)
    requires n <= |body|
    ensures content == body
  {
    body[..n] + body[n..]
  }

  /** The handler's whole decision on an upload. */
  method Sniff(body: Bytes, n: nat, sniffed: string) returns (mime: string, content: Bytes)
    requires n <= |body| && n <= PEEK_LIMIT
    ensures mime == Decide(sniffed, body[..n])
    ensures content == body
    ensures IsImage(mime) ==> HasSignature(mime, content)
  {
    var peek := body[..n];
    mime := sniffed;
    if mime in DANGEROUS {
      mime := OCTET_STREAM;
    }
    if IsImage(mime) {
      var valid := ValidateImageMagic(mime, peek);
      if !valid {
        mime := OCTET_STREAM;
      }
    }
    content := Recombine(body, n);
    SignatureOfPrefix(mime, peek, content);
  }

  /** A signature found in a prefix is a signature of the whole. */
  lemma SignatureOfPrefix(mime: string, peek: Bytes, content: Bytes)
    requires peek <= content
    ensures HasSignature(mime, peek) ==> HasSignature(mime, content)
  {
    if mime == "image/webp" && |peek| >= 12 {
      assert content[..4] == peek[..4] && content[8..12] == peek[8..12];
    }
  }

  /** Every supported type has a check: some content is accepted for it, and never the empty one. */
  lemma EverySupportedTypeIsChecked(mime: string)
    requires IsImage(mime)
    ensures mime == "image/webp" || mime in MAGIC
    ensures !HasSignature(mime, [])
    ensures exists peek: Bytes :: Decide(mime, peek) == mime
  {
    var pad: Bytes := [0, 0, 0, 0];
    var sample: Bytes :=
      if mime == "image/png" then PNG
      else if mime == "image/jpeg" then JPEG + pad
      else if mime == "image/gif" then GIF89
      else if mime == "image/bmp" then BMP + pad
      else RIFF + pad + WEBP;
    assert HasSignature(mime, sample) by {
      if mime == "image/webp" {
        assert sample[..4] == RIFF && sample[8..12] == WEBP;
      }
    }
    assert Decide(mime, sample) == mime;
  }

  /** The signatures byte by byte, as the formats define them. */
  lemma SignatureBytes(c: Bytes)
    ensures HasSignature("image/png", c) <==>
              |c| >= 8 && c[0] == 137 && c[1] == 80 && c[2] == 78 && c[3] == 71 && c[4] == 13 && c[5] == 10 &&
              c[6] == 26 && c[7] == 10
    ensures HasSignature("image/jpeg", c) <==> |c| >= 3 && c[0] == 255 && c[1] == 216 && c[2] == 255
    ensures HasSignature("image/bmp", c) <==> |c| >= 2 && c[0] == 66 && c[1] == 77
    ensures HasSignature("image/gif", c) <==>
              |c| >= 6 && c[0] == 71 && c[1] == 73 && c[2] == 70 && c[3] == 56 &&
              (c[4] == 55 || c[4] == 57) && c[5] == 97
    ensures HasSignature("image/webp", c) <==>
              |c| >= 12 && c[0] == 82 && c[1] == 73 && c[2] == 70 && c[3] == 70 && c[8] == 87 && c[9] == 69 &&
              c[10] == 66 && c[11] == 80
  {
  }

  /** The supported types are exactly those with a signature to check. */
  lemma SupportedIffSigned(mime: string)
    ensures IsImage(mime) <==> exists content: Bytes :: HasSignature(mime, content)
  {
    if IsImage(mime) {
      EverySupportedTypeIsChecked(mime);
      var peek: Bytes :| Decide(mime, peek) == mime;
      assert HasSignature(mime, peek);
    }
  }
}
