/** services/audio_service.py: audio extraction through an FFmpeg child
    process. The process itself is foreign; it is a parameter that maps the
    argument vector to how the process ended. */
module Audio {
  import opened Common
  import Config

  /** How `subprocess.run(cmd, check=True)` ended: the process exited with a
      return code (and the output file exists afterwards or not), or the call
      raised, e.g. because the executable was not found. */
  datatype ProcessOutcome = Exited(returnCode: int, outputExists: bool) | Raised(message: string)

  /** `FFmpegAudioExtractor`, the one extractor the repository has. */
  datatype AudioExtractor = FFmpegAudioExtractor(ffmpegPath: string)

  /** `AudioService`, which delegates to its extractor. */
  datatype AudioService = AudioService(extractor: AudioExtractor)

  /** The argument vector `FFmpegAudioExtractor.extract_audio` runs. */
  function FFmpegCommand(ffmpegPath: string, videoPath: string, outputPath: string): (cmd: seq<string>)
    ensures |cmd| == 10 && cmd[0] == ffmpegPath && cmd[|cmd| - 1] == outputPath
  {
    [ffmpegPath, "-i", videoPath, "-vn", "-ac", "1", "-ar", "16000", "-y", outputPath]
  }

  /** A reading of an FFmpeg argument list, independent of how the command is
      built: the input, whether video is dropped, the channel count, the
      sample rate, whether the output is overwritten, and the output file. */
  datatype FFmpegOptions = FFmpegOptions(
    input: Option<string>,
    noVideo: bool,
    channels: Option<string>,
    sampleRate: Option<string>,
    overwrite: bool,
    output: Option<string>)

  const NoOptions: FFmpegOptions := FFmpegOptions(None, false, None, None, false, None)

  predicate IsOption(arg: string)
  {
    |arg| > 0 && arg[0] == '-'
  }

  /** Reads the arguments after the program name left to right, as FFmpeg
      does: `-i`, `-ac` and `-ar` take the next argument as their value,
      `-vn` and `-y` stand alone, any other option is refused, and a
      non-option argument names the output. */
  function ReadOptions(args: seq<string>, acc: FFmpegOptions): Option<FFmpegOptions>
    decreases |args|
  {
    if args == [] then Some(acc)
    else if args[0] == "-i" || args[0] == "-ac" || args[0] == "-ar" then
      if |args| < 2 then None
      else
        var v := args[1];
        var acc' :=
          if args[0] == "-i" then acc.(input := Some(v))
          else if args[0] == "-ac" then acc.(channels := Some(v))
          else acc.(sampleRate := Some(v));
        ReadOptions(args[2..], acc')
    else if args[0] == "-vn" then ReadOptions(args[1..], acc.(noVideo := true))
    else if args[0] == "-y" then ReadOptions(args[1..], acc.(overwrite := true))
    else if IsOption(args[0]) then None
    else ReadOptions(args[1..], acc.(output := Some(args[0])))
  }

  /** The command asks FFmpeg for exactly this: read the video, drop the
      video stream, one channel, 16000 Hz, overwrite, write the output path.
      The video path is taken as the value of `-i` whatever it looks like. */
  lemma {:induction false} CommandReadsBack(ffmpegPath: string, videoPath: string, outputPath: string)
    requires !IsOption(outputPath)
    ensures ReadOptions(FFmpegCommand(ffmpegPath, videoPath, outputPath)[1..], NoOptions)
         == Some(FFmpegOptions(Some(videoPath), true, Some("1"), Some("16000"), true, Some(outputPath)))
  {
    var args := FFmpegCommand(ffmpegPath, videoPath, outputPath)[1..];
    var o1 := NoOptions.(input := Some(videoPath));
    var o2 := o1.(noVideo := true);
    var o3 := o2.(channels := Some("1"));
    var o4 := o3.(sampleRate := Some("16000"));
    var o5 := o4.(overwrite := true);
    var o6 := o5.(output := Some(outputPath));
    assert args[2..] == ["-vn", "-ac", "1", "-ar", "16000", "-y", outputPath];
    assert ReadOptions([], o6) == Some(o6);
    assert ReadOptions([outputPath], o5) == ReadOptions([], o6) by {
      assert [outputPath][1..] == [];
    }
    assert ReadOptions(["-y", outputPath], o4) == ReadOptions([outputPath], o5) by {
      assert ["-y", outputPath][1..] == [outputPath];
    }
    assert ReadOptions(["-ar", "16000", "-y", outputPath], o3) == ReadOptions(["-y", outputPath], o4) by {
      assert ["-ar", "16000", "-y", outputPath][2..] == ["-y", outputPath];
    }
    assert ReadOptions(["-ac", "1", "-ar", "16000", "-y", outputPath], o2)
        == ReadOptions(["-ar", "16000", "-y", outputPath], o3) by {
      assert ["-ac", "1", "-ar", "16000", "-y", outputPath][2..] == ["-ar", "16000", "-y", outputPath];
    }
    assert ReadOptions(["-vn", "-ac", "1", "-ar", "16000", "-y", outputPath], o1)
        == ReadOptions(["-ac", "1", "-ar", "16000", "-y", outputPath], o2) by {
      assert ["-vn", "-ac", "1", "-ar", "16000", "-y", outputPath][1..]
          == ["-ac", "1", "-ar", "16000", "-y", outputPath];
    }
  }

  /** `FFmpegAudioExtractor.extract_audio`. `dirsReady` says whether
      `os.makedirs` of the output's directory succeeded; `ffmpeg` is the
      child process. Every failure, a non-zero exit included, becomes
      `false`: the result is a `bool`, so the call never raises. */
  function ExtractAudio(e: AudioExtractor, videoPath: string, outputPath: string, dirsReady: bool,
                        ffmpeg: seq<string> -> ProcessOutcome): (ok: bool)
    ensures ok <==> dirsReady && ffmpeg(FFmpegCommand(e.ffmpegPath, videoPath, outputPath)) == Exited(0, true)
    ensures (ffmpeg(FFmpegCommand(e.ffmpegPath, videoPath, outputPath)).Exited?
             && ffmpeg(FFmpegCommand(e.ffmpegPath, videoPath, outputPath)).returnCode != 0) ==> !ok
    ensures ffmpeg(FFmpegCommand(e.ffmpegPath, videoPath, outputPath)).Raised? ==> !ok
  {
    if !dirsReady then false
    else
      match ffmpeg(FFmpegCommand(e.ffmpegPath, videoPath, outputPath))
      case Raised(_) => false
      case Exited(code, outputExists) => if code != 0 then false else outputExists
  }

  /** `AudioService(extractor)`: the given extractor, or an FFmpeg extractor
      using the configured executable when none is given. */
  function NewAudioService(extractor: Option<AudioExtractor>, c: Config.Settings): (svc: AudioService)
    ensures extractor.None? ==> svc.extractor == FFmpegAudioExtractor(c.ffmpegPath)
    ensures extractor.Some? ==> svc.extractor == extractor.value
  {
    AudioService(if extractor.Some? then extractor.value else FFmpegAudioExtractor(c.ffmpegPath))
  }

  /** `AudioService.extract_audio_from_video`: exactly the extractor's
      answer, so true iff FFmpeg, run with the extractor's executable on
      these paths, exits with 0 and leaves the output file behind. */
  function ExtractAudioFromVideo(svc: AudioService, videoPath: string, outputPath: string, dirsReady: bool,
                                 ffmpeg: seq<string> -> ProcessOutcome): (ok: bool)
    ensures ok == ExtractAudio(svc.extractor, videoPath, outputPath, dirsReady, ffmpeg)
    ensures ok <==> dirsReady
                    && ffmpeg(FFmpegCommand(svc.extractor.ffmpegPath, videoPath, outputPath)) == Exited(0, true)
  {
    ExtractAudio(svc.extractor, videoPath, outputPath, dirsReady, ffmpeg)
  }
}
