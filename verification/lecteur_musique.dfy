/**
 The `lecteur-musique` element: the state its event handlers read and write
 (the media element's position, duration, rate and paused flag, the seek
 bar's value, the time label, and the lazily created analysis buffer), with
 one method per handler.
 */
module Player {
  import opened TimeFormat
  import opened Playback
  import opened Visualizer

  /** The analyser's transform size, set once when the pipeline is created. */
  const FftSize: nat := 256
  /** `frequencyBinCount`: half the transform size, the length of the sample buffer. */
  const FrequencyBinCount: nat := FftSize / 2

  /** The label the markup starts with; it is not an output of `formatTime`. */
  const InitialTimeText: string := "00:00 / 00:00"

  class LecteurMusique {
    // The media element.
    var currentTime: real
    var duration: real
    var playbackRate: real
    var paused: bool
    // The seek bar and the time label.
    var progressValue: real
    var timeText: string
    // The analysis pipeline: `audioContext` is set, and `dataArray` allocated, on the first play.
    var audioContextReady: bool
    var dataArray: array?<Byte>

    ghost predicate Valid()
      reads this
    {
      && 0.0 < duration
      && 0.0 <= currentTime <= duration
      && InRateRange(playbackRate)
      && 0.0 <= progressValue <= SeekBarMax
      && (audioContextReady <==> dataArray != null)
      && (dataArray != null ==> dataArray.Length == FrequencyBinCount)
    }

    /** The seek bar shows the current position (what `timeupdate` re-establishes). */
    ghost predicate SeekBarInSync()
      reads this
      requires Valid()
    {
      progressValue == Progress(currentTime, duration)
    }

    /** A new player on a track whose duration is known. */
    constructor (mediaDuration: real)
      requires mediaDuration > 0.0
      ensures Valid()
      ensures currentTime == 0.0 && duration == mediaDuration && playbackRate == 1.0 && paused
      ensures progressValue == 0.0 && timeText == InitialTimeText
      ensures !audioContextReady && dataArray == null
    {
      currentTime := 0.0;
      duration := mediaDuration;
      playbackRate := 1.0;
      paused := true;
      progressValue := 0.0;
      timeText := InitialTimeText;
      audioContextReady := false;
      dataArray := null;
    }

    /** Play: starts the media, and creates the analysis pipeline only if there is none yet. */
    method Play()
      requires Valid()
      modifies this`paused, this`audioContextReady, this`dataArray
      ensures Valid()
      ensures !paused && audioContextReady
      ensures old(audioContextReady) ==> dataArray == old(dataArray)
      ensures !old(audioContextReady) ==> fresh(dataArray) && dataArray[..] == seq(FrequencyBinCount, _ => 0)
    {
      paused := false;
      if !audioContextReady {
        SetupAudioContext();
      }
    }

    /** Creates the pipeline: a zero-filled sample buffer of `fftSize / 2` bytes. */
    method SetupAudioContext()
      requires Valid()
      modifies this`audioContextReady, this`dataArray
      ensures Valid()
      ensures audioContextReady && fresh(dataArray)
      ensures dataArray.Length == FrequencyBinCount && dataArray[..] == seq(FrequencyBinCount, _ => 0)
    {
      audioContextReady := true;
      dataArray := new Byte[FrequencyBinCount](_ => 0);
    }

    /** Pause: stops the media; the pipeline and its buffer stay. */
    method Pause()
      requires Valid()
      modifies this`paused
      ensures Valid() && paused
    {
      paused := true;
    }

    method SkipBackward()
      requires Valid()
      modifies this`currentTime
      ensures Valid()
      ensures currentTime == SkipBack(old(currentTime))
      ensures currentTime <= old(currentTime)
    {
      currentTime := SkipBack(currentTime);
    }

    method SkipForward()
      requires Valid()
      modifies this`currentTime
      ensures Valid()
      ensures currentTime == Playback.SkipForward(old(currentTime), duration)
      ensures old(currentTime) <= currentTime
    {
      currentTime := Playback.SkipForward(currentTime, duration);
    }

    method SlowDown()
      requires Valid()
      modifies this`playbackRate
      ensures Valid()
      ensures playbackRate == Playback.SlowDown(old(playbackRate))
    {
      playbackRate := Playback.SlowDown(playbackRate);
    }

    method SpeedUp()
      requires Valid()
      modifies this`playbackRate
      ensures Valid()
      ensures playbackRate == Playback.SpeedUp(old(playbackRate))
    {
      playbackRate := Playback.SpeedUp(playbackRate);
    }

    /** `timeupdate`: the seek bar and the label catch up with the position. */
    method TimeUpdate()
      requires Valid()
      modifies this`progressValue, this`timeText
      ensures Valid() && SeekBarInSync()
      ensures timeText == FormatTime(currentTime) + " / " + FormatTime(duration)
    {
      progressValue := Progress(currentTime, duration);
      timeText := FormatTime(currentTime) + " / " + FormatTime(duration);
    }

    /**
     The seek bar's `input` event: the range element now holds `value`, and the
     handler moves the media to the matching position.
     */
    method SeekInput(value: real)
      requires Valid()
      requires 0.0 <= value <= SeekBarMax
      modifies this`progressValue, this`currentTime
      ensures Valid() && SeekBarInSync()
      ensures progressValue == value && currentTime == SeekTime(value, duration)
    {
      progressValue := value;
      currentTime := SeekTime(value, duration);
    }

    /**
     One frame of the visualizer: the analyser fills the buffer in place with
     the current magnitudes, and the frame's bars are laid out from it.
     */
    method DrawVisualizer(canvasWidth: nat, canvasHeight: nat, frequencyData: seq<Byte>) returns (bars: seq<Bar>)
      requires Valid() && audioContextReady
      requires |frequencyData| == FrequencyBinCount
      modifies dataArray
      ensures Valid()
      ensures dataArray[..] == frequencyData
      ensures bars == FrameBars(canvasWidth, canvasHeight, frequencyData)
      ensures |bars| == FrequencyBinCount
    {
      forall i | 0 <= i < dataArray.Length {
        dataArray[i] := frequencyData[i];
      }
      bars := LayoutBars(canvasWidth, canvasHeight, dataArray[..]);
    }
  }

  /**
   A usage example of the class, not a handler: later plays and pauses keep
   the one pipeline; two speed-ups from 1.0 give 1.5.
   */
  method PlayerSession(mediaDuration: real)
    requires mediaDuration > 0.0
  {
    var p := new LecteurMusique(mediaDuration);
    p.Play();
    var buffer := p.dataArray;
    p.Pause();
    p.SpeedUp();
    p.SpeedUp();
    assert p.playbackRate == 1.5;
    p.Play();
    assert p.dataArray == buffer && buffer.Length == 128;
    p.SkipBackward();
    assert p.currentTime == 0.0;
  }
}
