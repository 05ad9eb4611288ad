/**
 * The calls the routine makes into the external audio tools
 * (`convert_to_pcm`, `stereofy_and_find_info`, `convert_to_mp3`,
 * `convert_to_ogg`, `create_wave_images`, `analyze`), with the arguments
 * each receives.
 */
module Tools {
  import opened Locations

  datatype Call =
    | ConvertToPcm(input: Path, output: Path)
    | StereofyAndFindInfo(input: Path, output: Path)
    | ConvertToMp3(input: Path, output: Path, quality: int)
    | ConvertToOgg(input: Path, output: Path, quality: int)
    | CreateWaveImages(input: Path, waveform: Path, spectral: Path, width: int, height: int, fftSize: int)
    | Analyze
}
