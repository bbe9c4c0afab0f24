/**
 * The MIME type guessed for a stored face image from its S3 key, and the data URL built from the
 * image's bytes. Reading the object from S3 and the base64 encoding of its bytes are outside the
 * model: the caller gives the encoded content, or `None` when the read throws.
 */
module FaceImages {
  import opened Wrappers
  import opened JsStrings

  const Png := "image/png"
  const Jpeg := "image/jpeg"
  const Gif := "image/gif"
  const Webp := "image/webp"

  /** `s.split(sep).pop()`: the last piece, which always exists since a split has at least one. */
  function LastPiece(s: string, sep: char): string {
    var pieces := Split(s, sep);
    pieces[|pieces| - 1]
  }

  /** One step of the split: past the first separator, the last piece is that of the rest. */
  lemma LastPieceStep(s: string, sep: char, k: nat)
    requires IndexOf(s, sep) == Some(k)
    ensures LastPiece(s, sep) == LastPiece(s[k + 1..], sep)
  {
    var tail := Split(s[k + 1..], sep);
    assert Split(s, sep) == [s[..k]] + tail;
  }

  /** The last piece is a suffix, preceded by a separator when it is not the whole string. */
  lemma {:induction false} LastPieceIsSuffix(s: string, sep: char)
    ensures var r := LastPiece(s, sep);
            && |r| <= |s| && s[|s| - |r|..] == r
            && (|r| < |s| ==> s[|s| - |r| - 1] == sep)
    decreases |s|
  {
    match IndexOf(s, sep)
    case None =>
      assert Split(s, sep) == [s];
    case Some(k) =>
      var rest := s[k + 1..];
      LastPieceIsSuffix(rest, sep);
      LastPieceStep(s, sep, k);
      var r := LastPiece(rest, sep);
      assert s[|s| - |r|..] == rest[|rest| - |r|..];
      if |r| < |rest| {
        assert s[|s| - |r| - 1] == rest[|rest| - |r| - 1];
      }
  }

  /** The last piece is the text after the last separator, or the whole string when it has none. */
  lemma LastPieceIsTextAfterLastSeparator(s: string, sep: char)
    ensures var r := LastPiece(s, sep);
            && sep !in r
            && |r| <= |s| && s[|s| - |r|..] == r
            && (|r| < |s| ==> s[|s| - |r| - 1] == sep)
            && (sep !in s ==> r == s)
  {
    LastPieceIsSuffix(s, sep);
    if sep !in s {
      assert Split(s, sep) == [s];
    }
  }

  /** A separator-free suffix that follows a separator is the last piece. */
  lemma LastPieceOfSuffix(name: string, sep: char, ext: string)
    requires sep !in ext
    ensures LastPiece(name + [sep] + ext, sep) == ext
  {
    var s := name + [sep] + ext;
    LastPieceIsTextAfterLastSeparator(s, sep);
    var r := LastPiece(s, sep);
    assert forall i :: |s| - |r| <= i < |s| ==> s[i] == r[i - (|s| - |r|)] != sep;
    assert forall i :: |s| - |ext| <= i < |s| ==> s[i] == ext[i - (|s| - |ext|)] != sep;
    assert s[|s| - |ext| - 1] == sep;
    assert s[|s| - |ext|..] == ext;
  }

  /** The lowercased extension of a key: `key.split(".").pop()?.toLowerCase()`. */
  function Extension(key: string): (ext: string)
    ensures |ext| <= |key| && '.' !in ext
  {
    LastPieceIsTextAfterLastSeparator(key, '.');
    assert forall k :: 0 <= k < |LastPiece(key, '.')| ==> LowerChar(LastPiece(key, '.')[k]) != '.';
    ToLower(LastPiece(key, '.'))
  }

  /** The switch on the extension. */
  function MimeOfExtension(ext: string): (mime: string)
    ensures mime in {Png, Jpeg, Gif, Webp}
  {
    match ext
    case "jpg" => Jpeg
    case "jpeg" => Jpeg
    case "gif" => Gif
    case "webp" => Webp
    case _ => Png
  }

  /** guessMimeType: PNG for a missing or empty key, otherwise by the extension. */
  function GuessMimeType(key: Option<string>): (mime: string)
    ensures mime in {Png, Jpeg, Gif, Webp}
    ensures OrNull(key) == None ==> mime == Png
  {
    match OrNull(key)
    case None => Png
    case Some(k) => MimeOfExtension(Extension(k))
  }

  /** The extensions the switch names, in any letter case, after the last dot of a key. */
  lemma MimeOfKnownExtensions(name: string, ext: string)
    requires '.' !in ext
    ensures GuessMimeType(Some(name + "." + ext)) == MimeOfExtension(ToLower(ext))
    ensures ToLower(ext) in {"jpg", "jpeg"} ==> GuessMimeType(Some(name + "." + ext)) == Jpeg
    ensures ToLower(ext) == "gif" ==> GuessMimeType(Some(name + "." + ext)) == Gif
    ensures ToLower(ext) == "webp" ==> GuessMimeType(Some(name + "." + ext)) == Webp
    ensures ToLower(ext) !in {"jpg", "jpeg", "gif", "webp"} ==> GuessMimeType(Some(name + "." + ext)) == Png
  {
    LastPieceOfSuffix(name, '.', ext);
    assert OrNull(Some(name + "." + ext)) == Some(name + "." + ext);
  }

  /** A key with no dot is its own extension: `jpg` is a JPEG, `photo` a PNG. */
  lemma MimeOfDotlessKey(key: string)
    requires key != [] && '.' !in key
    ensures GuessMimeType(Some(key)) == MimeOfExtension(ToLower(key))
  {
    LastPieceIsTextAfterLastSeparator(key, '.');
  }

  /** readImageDataUrl. `encoded` is the base64 text of the object under the key, or `None` when
      the read fails. */
  function ReadImageDataUrl(key: Option<string>, encoded: string -> Option<string>): (url: Option<string>)
    ensures OrNull(key) == None ==> url == None
    ensures url.Some? <==> OrNull(key).Some? && encoded(key.value).Some?
    ensures url.Some? ==>
              url.value == "data:" + GuessMimeType(key) + ";base64," + encoded(key.value).value
  {
    match OrNull(key)
    case None => None
    case Some(k) =>
      match encoded(k)
      case None => None
      case Some(base64) => Some("data:" + GuessMimeType(key) + ";base64," + base64)
  }
}
