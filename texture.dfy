/** Loading the mug's texture (UCreateTexture, main.cpp:1204-1238): the decoded image is
    flipped into bottom-up row order and uploaded as RGB8 or RGBA8 according to its
    channel count. The decoder itself is foreign: its outcome is a parameter, a null
    buffer standing for a failed decode. */
module Texture {
  import opened Optional
  import opened ImageFlip

  /** The internal formats the loader can upload. */
  datatype PixelFormat = RGB8 | RGBA8

  /** Bytes per pixel of each format. */
  function ChannelCount(f: PixelFormat): (n: nat)
    ensures n == 3 || n == 4
  {
    match f
    case RGB8 => 3
    case RGBA8 => 4
  }

  /** The format chosen for an image with the given number of channels; any count
      other than 3 or 4 is not handled. */
  function FormatFor(channels: int): (f: Option<PixelFormat>)
    ensures f.Some? <==> channels == 3 || channels == 4
    ensures f.Some? ==> ChannelCount(f.value) == channels
  {
    if channels == 3 then Some(RGB8)
    else if channels == 4 then Some(RGBA8)
    else None
  }

  /** The image handed to glTexImage2D. */
  datatype TexImage = TexImage(format: PixelFormat, width: int, height: int, pixels: seq<byte>)

  /** The graphics calls one load makes, beyond its boolean result. */
  datatype TextureEffects = TextureEffects(
    generated: bool,           // glGenTextures and glBindTexture ran
    upload: Option<TexImage>,  // the glTexImage2D call, if any
    mipmapped: bool,           // glGenerateMipmap ran
    imageFreed: bool,          // stbi_image_free ran
    unbound: bool)             // texture unit 0 was unbound at the end

  /** What a load does once the decoder produced a buffer of the given shape, which
      must already be flipped: everything hinges on the channel count. */
  function LoadEffects(pixels: seq<byte>, width: int, height: int, channels: int): (e: TextureEffects)
    ensures e.generated
    ensures e.upload.Some? <==> FormatFor(channels).Some?
    ensures e.upload.Some? ==>
      && e.upload.value.pixels == pixels
      && ChannelCount(e.upload.value.format) == channels
      && e.upload.value.width == width && e.upload.value.height == height
    ensures e.mipmapped == e.imageFreed == e.unbound == e.upload.Some?
  {
    match FormatFor(channels)
    case Some(f) => TextureEffects(true, Some(TexImage(f, width, height, pixels)), true, true, true)
    case None => TextureEffects(true, None, false, false, false)
  }

  /** UCreateTexture: a decoded image is flipped before anything else, whatever its
      channel count; the load succeeds exactly for 3 or 4 channels. A failed decode
      (image == null) returns false and touches nothing. */
  method CreateTexture(image: array?<byte>, width: int, height: int, channels: int)
    returns (ok: bool, effects: TextureEffects)
    requires image != null ==> InBounds(image.Length, width * channels, height)
    modifies image
    ensures image == null ==> !ok && effects == TextureEffects(false, None, false, false, false)
    ensures image != null ==> image[..] == Flipped(old(image[..]), width * channels, height)
    ensures image != null ==> effects == LoadEffects(image[..], width, height, channels)
    ensures ok <==> image != null && FormatFor(channels).Some?
  {
    if image == null {
      return false, TextureEffects(false, None, false, false, false);
    }
    FlipImageVertically(image, width, height, channels);
    var format := FormatFor(channels);
    if format.None? {
      // the texture stays generated and bound, and the image is not released
      return false, TextureEffects(true, None, false, false, false);
    }
    ok := true;
    effects := TextureEffects(true, Some(TexImage(format.value, width, height, image[..])), true, true, true);
  }

  /** A successful load uploads exactly the flipped image, and flipping that upload
      again gives back the decoder's rows. */
  lemma UploadUnflips(decoded: seq<byte>, width: int, height: int, channels: int)
    requires InBounds(|decoded|, width * channels, height)
    requires FormatFor(channels).Some?
    ensures var e := LoadEffects(Flipped(decoded, width * channels, height), width, height, channels);
      e.upload.Some? && Flipped(e.upload.value.pixels, width * channels, height) == decoded
  {
    FlipInvolution(decoded, width * channels, height);
  }
}
