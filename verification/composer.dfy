/** The composer's constant block: the per-frame parameters handed to the composer shader.
    Only the field values are modelled; their memory layout is not. */
module Composer {
  import opened EngineTypes

  /** The effect's public look settings that feed the composer. */
  datatype Settings = Settings(
    fogColor: Color,
    fogBoost: real,
    falloff: real,
    fogMinimumValue: real,
    scanlineStrength: real,
    useDithering: bool,
    ditherStrength: real,
    ditherBlend: real,
    ditherSize: int)

  /** What the host supplies each frame: the scene texture size, the screen size and the
      scene view's near and far planes. */
  datatype HostFrame = HostFrame(sceneRenderSize: Float2, screenSize: Float2, near: real, far: real)

  /** The constant block. Booleans travel to the shader as integers. */
  datatype ComposerData = ComposerData(
    sceneRenderSize: Float2,
    upscaledSize: Float2,
    near: real,
    far: real,
    fogBoost: real,
    falloff: real,
    fogColor: Float4,
    fogMin: real,
    scanlineStrength: real,
    useDithering: int,
    ditherStrength: real,
    ditherBlend: real,
    ditherSize: int)

  /** The shader's encoding of a flag: one for true, zero for false. */
  function FlagToInt(b: bool): (i: int)
    ensures i == 0 || i == 1
    ensures i == 1 <==> b
  {
    if b then 1 else 0
  }

  /** Assembles the constant block: the dithering flag is encoded as zero or one, the fog
      colour's channels become a four-vector and every other setting and host value is
      copied unchanged. */
  function Assemble(settings: Settings, host: HostFrame): (d: ComposerData)
    ensures d.useDithering == 1 <==> settings.useDithering
    ensures d.useDithering == 0 <==> !settings.useDithering
    ensures d.fogColor == Float4(settings.fogColor.r, settings.fogColor.g,
                                 settings.fogColor.b, settings.fogColor.a)
    ensures && d.fogBoost == settings.fogBoost && d.falloff == settings.falloff
            && d.fogMin == settings.fogMinimumValue
            && d.scanlineStrength == settings.scanlineStrength
            && d.ditherStrength == settings.ditherStrength && d.ditherBlend == settings.ditherBlend
            && d.ditherSize == settings.ditherSize
    ensures && d.sceneRenderSize == host.sceneRenderSize && d.upscaledSize == host.screenSize
            && d.near == host.near && d.far == host.far
  {
    ComposerData(
      sceneRenderSize := host.sceneRenderSize,
      upscaledSize := host.screenSize,
      near := host.near,
      far := host.far,
      fogColor := Float4(settings.fogColor.r, settings.fogColor.g,
                         settings.fogColor.b, settings.fogColor.a),
      fogBoost := settings.fogBoost,
      falloff := settings.falloff,
      fogMin := settings.fogMinimumValue,
      scanlineStrength := settings.scanlineStrength,
      useDithering := FlagToInt(settings.useDithering),
      ditherStrength := settings.ditherStrength,
      ditherBlend := settings.ditherBlend,
      ditherSize := settings.ditherSize)
  }

  /** Reads the settings back out of a constant block, as the shader sees them. */
  function ReadSettings(d: ComposerData): Settings {
    Settings(
      Color(d.fogColor.x, d.fogColor.y, d.fogColor.z, d.fogColor.w),
      d.fogBoost, d.falloff, d.fogMin, d.scanlineStrength,
      d.useDithering != 0,
      d.ditherStrength, d.ditherBlend, d.ditherSize)
  }

  /** Nothing is lost in the block: the settings and host values read back from an
      assembled block are the ones it was assembled from. */
  lemma AssembleRoundTrip(settings: Settings, host: HostFrame)
    ensures ReadSettings(Assemble(settings, host)) == settings
    ensures var d := Assemble(settings, host);
            HostFrame(d.sceneRenderSize, d.upscaledSize, d.near, d.far) == host
  {
  }
}
