/**
 * The voice memo recorder: an idle / recording / paused controller over a
 * media recorder, a one-second duration counter capped at `maxDuration`, the
 * buffer of recorded chunks, the upload when the recorder stops, and the
 * `m:ss` duration label. The media recorder and the one-second interval are
 * outside: each of their callbacks is a method here, and what they report is
 * a parameter.
 */
module Recorder {
  import opened Wrappers
  import opened Text

  /** One piece of recorded audio as the media recorder hands it over. */
  datatype Chunk = Chunk(id: nat, size: nat)

  /** What the recorder's `uploadFile` call answers: an object with optional `error` and `data`, or a throw. */
  datatype UploadResponse = Response(error: Option<string>, data: Option<string>) | Threw(message: string)

  datatype Call =
    | RecorderStart
    | RecorderStop
    | RecorderPause
    | RecorderResume
    | Upload(bucket: string, fileName: string, chunks: seq<Chunk>)
    | RecordingComplete(url: string)
    | ErrorToast(message: string)
    | StopTracks

  const DefaultMaxDuration: nat := 300

  /** One tick of the duration timer: the count stops at the maximum. */
  function TickValue(d: nat, maxDuration: nat): nat {
    if d >= maxDuration then d else d + 1
  }

  /** The duration after `n` ticks from a fresh start. */
  function DurationAfter(n: nat, maxDuration: nat): nat {
    if n == 0 then 0 else TickValue(DurationAfter(n - 1, maxDuration), maxDuration)
  }

  /** A tick never passes the maximum and never goes back. */
  lemma TickBounded(d: nat, maxDuration: nat)
    requires d <= maxDuration
    ensures d <= TickValue(d, maxDuration) <= maxDuration
    ensures TickValue(d, maxDuration) == d <==> d == maxDuration
  {
  }

  /** From a fresh start the duration is the number of ticks, until it reaches the maximum and stays. */
  lemma {:induction false} DurationIsCappedTickCount(n: nat, maxDuration: nat)
    ensures DurationAfter(n, maxDuration) == if n <= maxDuration then n else maxDuration
  {
    if n > 0 {
      DurationIsCappedTickCount(n - 1, maxDuration);
    }
  }

  /** `formatDuration`: whole minutes, a colon, the remaining seconds padded to two digits. */
  function FormatDuration(seconds: nat): string {
    NatToDecimal(seconds / 60) + ":" + PadTwo(NatToDecimal(seconds % 60))
  }

  /** Reads an `m:ss` label back: the inverse against which `FormatDuration` is checked. */
  function ParseDuration(t: string): Option<nat> {
    var parts := Split(t, ':');
    if |parts| == 2 then ParseFields(parts[0], parts[1]) else None
  }

  /** The value of a minutes field and a seconds field, when both are well formed. */
  function ParseFields(minutes: string, secs: string): Option<nat> {
    if && minutes != [] && (forall i :: 0 <= i < |minutes| ==> IsDigit(minutes[i]))
       && |secs| == 2 && IsDigit(secs[0]) && IsDigit(secs[1]) && DecimalValue(secs) < 60
    then Some(DecimalValue(minutes) * 60 + DecimalValue(secs))
    else None
  }

  /** A leading zero does not change the value of a digit string. */
  lemma {:induction false} LeadingZero(s: string)
    ensures DecimalValue("0" + s) == DecimalValue(s)
  {
    if s != [] {
      var t := "0" + s;
      assert t[..|t| - 1] == "0" + s[..|s| - 1];
      assert t[|t| - 1] == s[|s| - 1];
      LeadingZero(s[..|s| - 1]);
    } else {
      assert DecimalValue("0") == DecimalValue([]) * 10 + DigitValue('0');
    }
  }

  /** The seconds field: always exactly two digits, worth the remaining seconds. */
  lemma SecondsField(r: nat)
    requires r < 60
    ensures var p := PadTwo(NatToDecimal(r));
            |p| == 2 && IsDigit(p[0]) && IsDigit(p[1]) && DecimalValue(p) == r
  {
    var d := NatToDecimal(r);
    DecimalRoundTrip(r);
    if r < 10 {
      assert |d| == 1;
      LeadingZero(d);
    } else {
      assert d == NatToDecimal(r / 10) + [Digit(r % 10)];
      assert |d| == 2;
    }
  }

  /** Text holding one separator splits into the parts on either side of it. */
  lemma SplitLabel(m: string, p: string)
    requires ':' !in m && ':' !in p
    ensures Split(m + ":" + p, ':') == [m, p]
  {
    SplitAt(m, p, ':');
    SplitNoSeparator(m, ':');
    SplitNoSeparator(p, ':');
    assert m + ":" + p == m + [':'] + p;
  }

  /** The label splits at its colon into the minutes and the padded seconds. */
  lemma LabelSplits(seconds: nat)
    ensures Split(FormatDuration(seconds), ':')
            == [NatToDecimal(seconds / 60), PadTwo(NatToDecimal(seconds % 60))]
  {
    var m := NatToDecimal(seconds / 60);
    var p := PadTwo(NatToDecimal(seconds % 60));
    SecondsField(seconds % 60);
    DigitsExclude(m, ':');
    assert forall i :: 0 <= i < |p| ==> IsDigit(p[i]);
    DigitsExclude(p, ':');
    SplitLabel(m, p);
  }

  /** The two fields of the label are well formed and worth the minutes and the remaining seconds. */
  lemma LabelFieldsValue(minutes: nat, secs: nat)
    requires secs < 60
    ensures ParseFields(NatToDecimal(minutes), PadTwo(NatToDecimal(secs))) == Some(minutes * 60 + secs)
  {
    SecondsField(secs);
    DecimalRoundTrip(minutes);
  }

  /** Reading the label back gives the number of seconds: no two durations share a label. */
  lemma FormatDurationRoundTrip(seconds: nat)
    ensures ParseDuration(FormatDuration(seconds)) == Some(seconds)
  {
    LabelSplits(seconds);
    LabelFieldsValue(seconds / 60, seconds % 60);
  }

  /** The default maximum shows as five minutes. */
  lemma DefaultMaxLabel()
    ensures FormatDuration(DefaultMaxDuration) == "5:00"
  {
    assert NatToDecimal(5) == "5";
    assert NatToDecimal(0) == "0";
  }

  class VoiceMemoryRecorder {
    const maxDuration: nat
    var isRecording: bool
    var isPaused: bool
    var duration: nat
    /** Whether the one-second interval is running (`timerRef` set and not cleared). */
    var timerActive: bool
    /** Whether `mediaRecorderRef.current` holds a recorder. */
    var hasRecorder: bool
    var chunks: seq<Chunk>
    var calls: seq<Call>

    /** Paused only while recording; the timer runs only while recording and not paused; the duration
        never passes the maximum. */
    predicate Valid()
      reads this
    {
      && (isPaused ==> isRecording)
      && (timerActive ==> isRecording && !isPaused)
      && (isRecording ==> hasRecorder)
      && duration <= maxDuration
    }

    constructor (maxDuration: nat)
      ensures Valid()
      ensures this.maxDuration == maxDuration
      ensures !isRecording && !isPaused && duration == 0 && !timerActive && !hasRecorder
      ensures chunks == [] && calls == []
    {
      this.maxDuration := maxDuration;
      isRecording, isPaused, duration, timerActive, hasRecorder := false, false, 0, false, false;
      chunks, calls := [], [];
    }

    /** `startRecording`; `access` is the outcome of the microphone request. */
    method Start(access: Result<()>)
      requires Valid()
      modifies this
      ensures Valid()
      ensures access.Failure? ==>
                calls == old(calls) + [ErrorToast("Failed to start recording: " + access.error)]
                && isRecording == old(isRecording) && isPaused == old(isPaused) && duration == old(duration)
                && timerActive == old(timerActive) && hasRecorder == old(hasRecorder) && chunks == old(chunks)
      ensures access.Success? ==>
                calls == old(calls) + [RecorderStart]
                && isRecording && !isPaused && duration == 0 && timerActive && hasRecorder && chunks == []
    {
      if access.Failure? {
        calls := calls + [ErrorToast("Failed to start recording: " + access.error)];
        return;
      }
      hasRecorder := true;
      chunks := [];
      calls := calls + [RecorderStart];
      isRecording := true;
      isPaused := false;
      duration := 0;
      timerActive := true;
    }

    /** `ondataavailable`: only non-empty chunks are kept, in arrival order. */
    method DataAvailable(c: Chunk)
      modifies this`chunks
      ensures chunks == old(chunks) + (if c.size > 0 then [c] else [])
    {
      if c.size > 0 {
        chunks := chunks + [c];
      }
    }

    /** One interval tick. At the maximum the count stays where it is; the stop the callback then
        requests goes through a stale closure and is not modelled. */
    method Tick()
      requires Valid()
      modifies this`duration
      ensures Valid()
      ensures duration == if timerActive then TickValue(old(duration), maxDuration) else old(duration)
    {
      if timerActive {
        TickBounded(duration, maxDuration);
        if duration < maxDuration {
          duration := duration + 1;
        }
      }
    }

    /** `stopRecording`: a no-op unless recording. */
    method Stop()
      requires Valid()
      modifies this
      ensures Valid()
      ensures old(hasRecorder && isRecording) ==>
                !isRecording && !isPaused && !timerActive && calls == old(calls) + [RecorderStop]
      ensures !old(hasRecorder && isRecording) ==>
                isRecording == old(isRecording) && isPaused == old(isPaused)
                && timerActive == old(timerActive) && calls == old(calls)
      ensures duration == old(duration) && chunks == old(chunks) && hasRecorder == old(hasRecorder)
    {
      if hasRecorder && isRecording {
        calls := calls + [RecorderStop];
        isRecording := false;
        isPaused := false;
        timerActive := false;
      }
    }

    /** `pauseRecording`: only while recording and not paused. */
    method Pause()
      requires Valid()
      modifies this
      ensures Valid()
      ensures old(hasRecorder && isRecording && !isPaused) ==>
                isPaused && isRecording && !timerActive && calls == old(calls) + [RecorderPause]
      ensures !old(hasRecorder && isRecording && !isPaused) ==>
                isPaused == old(isPaused) && timerActive == old(timerActive) && calls == old(calls)
      ensures isRecording == old(isRecording) && duration == old(duration) && chunks == old(chunks)
      ensures hasRecorder == old(hasRecorder)
    {
      if hasRecorder && isRecording && !isPaused {
        calls := calls + [RecorderPause];
        isPaused := true;
        timerActive := false;
      }
    }

    /** `resumeRecording`: only while recording and paused. */
    method Resume()
      requires Valid()
      modifies this
      ensures Valid()
      ensures old(hasRecorder && isRecording && isPaused) ==>
                !isPaused && isRecording && timerActive && calls == old(calls) + [RecorderResume]
      ensures !old(hasRecorder && isRecording && isPaused) ==>
                isPaused == old(isPaused) && timerActive == old(timerActive) && calls == old(calls)
      ensures isRecording == old(isRecording) && duration == old(duration) && chunks == old(chunks)
      ensures hasRecorder == old(hasRecorder)
    {
      if hasRecorder && isRecording && isPaused {
        calls := calls + [RecorderResume];
        isPaused := false;
        timerActive := true;
      }
    }

    /** The recorder's `onstop`: upload the buffered chunks, hand the URL on when the response carries
        one and no error, report a failure otherwise, and stop the microphone tracks in every case. */
    method OnStop(now: nat, response: UploadResponse)
      modifies this`calls
      ensures calls == old(calls) + StopCalls(now, chunks, response)
    {
      calls := calls + [Upload("voice-memories", "voice-memory-" + NatToDecimal(now) + ".mp3", chunks)];
      if response.Threw? {
        calls := calls + [ErrorToast("Failed to upload recording: " + response.message)];
      } else if response.error.Some? && response.error.value != "" {
        calls := calls + [ErrorToast("Failed to upload recording: " + response.error.value)];
      } else if response.data.Some? && response.data.value != "" {
        calls := calls + [RecordingComplete(response.data.value)];
      }
      calls := calls + [StopTracks];
    }
  }

  /** The calls `onstop` makes. */
  function StopCalls(now: nat, chunks: seq<Chunk>, response: UploadResponse): seq<Call> {
    var upload := Upload("voice-memories", "voice-memory-" + NatToDecimal(now) + ".mp3", chunks);
    var outcome :=
      if response.Threw? then [ErrorToast("Failed to upload recording: " + response.message)]
      else if response.error.Some? && response.error.value != "" then
        [ErrorToast("Failed to upload recording: " + response.error.value)]
      else if response.data.Some? && response.data.value != "" then [RecordingComplete(response.data.value)]
      else [];
    [upload] + outcome + [StopTracks]
  }

  /** `onRecordingComplete` is called exactly when the response has no error and has data, and then with
      that data; the upload carries the whole buffer; the tracks are stopped last in every case. */
  lemma RecordingCompleteOnlyOnData(now: nat, chunks: seq<Chunk>, response: UploadResponse)
    ensures var c := StopCalls(now, chunks, response);
            && ((exists i :: 0 <= i < |c| && c[i].RecordingComplete?) <==>
                  (response.Response? && !(response.error.Some? && response.error.value != "")
                   && response.data.Some? && response.data.value != ""))
            && (forall i :: 0 <= i < |c| && c[i].RecordingComplete? ==> c[i].url == response.data.value)
            && c[0].Upload? && c[0].chunks == chunks
            && c[|c| - 1] == StopTracks
  {
    var c := StopCalls(now, chunks, response);
    if response.Response? && !(response.error.Some? && response.error.value != "")
       && response.data.Some? && response.data.value != "" {
      assert c[1].RecordingComplete?;
    }
  }
}
