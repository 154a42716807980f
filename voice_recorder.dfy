/**
 * The voice note recorder of the report form
 * (src/components/reports/VoiceRecorder.tsx). The component's state is a
 * set of flags and buffers that the media callbacks and the buttons update
 * in place; the browser's media objects are reduced to what they answer
 * (which formats are supported, how the microphone request ended, what the
 * storage and the transcription service replied).
 */
module VoiceRecorder {
  import opened Wrappers
  import opened Strings

  const BucketName: string := "audio"

  /** `MediaRecorder.isTypeSupported`, given as the set of supported types. */
  function ChooseMimeType(supported: set<string>): (m: string)
    ensures "audio/webm;codecs=opus" in supported ==> m == "audio/webm;codecs=opus"
    ensures "audio/webm;codecs=opus" !in supported && "audio/webm" in supported ==> m == "audio/webm"
    ensures "audio/webm;codecs=opus" !in supported && "audio/webm" !in supported && "audio/mp4" in supported ==>
      m == "audio/mp4"
    ensures m == "" <==> "audio/webm;codecs=opus" !in supported && "audio/webm" !in supported && "audio/mp4" !in supported
    ensures m != "" ==> m in supported
  {
    if "audio/webm;codecs=opus" in supported then "audio/webm;codecs=opus"
    else if "audio/webm" in supported then "audio/webm"
    else if "audio/mp4" in supported then "audio/mp4"
    else ""
  }

  /** The recorded blob's type: the chosen one, or `audio/webm` for the browser default. */
  function BlobType(mimeType: string): (t: string)
    ensures t != ""
    ensures mimeType != "" ==> t == mimeType
  {
    if mimeType == "" then "audio/webm" else mimeType
  }

  /** `audioBlob.type.includes('mp4') ? 'mp4' : 'webm'` */
  function Extension(blobType: string): (e: string)
    ensures e == "mp4" <==> Includes(blobType, "mp4")
    ensures e == "webm" <==> !Includes(blobType, "mp4")
  {
    if Includes(blobType, "mp4") then "mp4" else "webm"
  }

  /** `<intervention id>/<timestamp>.<extension>`: one folder per intervention. */
  function AudioFileName(interventionId: string, timestamp: nat, blobType: string): (f: string)
    ensures StartsWith(f, interventionId + "/")
  {
    var f := interventionId + "/" + NatToString(timestamp) + "." + Extension(blobType);
    assert f[..|interventionId| + 1] == interventionId + "/";
    f
  }

  /** The file's public URL; the project's base URL is not part of this model. */
  function PublicUrl(fileName: string): string {
    "/storage/v1/object/public/" + BucketName + "/" + fileName
  }

  /** Whichever format was picked, the file's extension matches the recording's type. */
  lemma ExtensionFollowsFormat(supported: set<string>)
    ensures "audio/webm;codecs=opus" in supported || "audio/webm" in supported ==>
      Extension(BlobType(ChooseMimeType(supported))) == "webm"
    ensures "audio/webm;codecs=opus" !in supported && "audio/webm" !in supported && "audio/mp4" in supported ==>
      Extension(BlobType(ChooseMimeType(supported))) == "mp4"
    ensures ChooseMimeType(supported) == "" ==> Extension(BlobType(ChooseMimeType(supported))) == "webm"
  {
    var m := ChooseMimeType(supported);
    var t := BlobType(m);
    if m == "audio/mp4" {
      assert t[6..][..3] == "mp4";
      IncludesAt(t, "mp4", 6);
    } else {
      assert t == "audio/webm" || t == "audio/webm;codecs=opus";
      MissingCharNotIncluded(t, "mp4");
    }
  }

  /** A number below 100 has at most two digits. */
  lemma TwoDigitsBelow100(n: nat)
    requires n < 100
    ensures |NatToString(n)| <= 2
  {
    if n >= 10 {
      assert NatToString(n) == NatToString(n / 10) + [DigitChar(n % 10)];
    }
  }

  /** `formatTime`: minutes and seconds, each padded to two digits. */
  function FormatTime(seconds: nat): (r: string)
    ensures |r| >= 5 && r[|r| - 3] == ':'
  {
    TwoDigitsBelow100(seconds % 60);
    PadZero(NatToString(seconds / 60), 2) + ":" + PadZero(NatToString(seconds % 60), 2)
  }

  /** The digits of a padded number. */
  lemma PadZeroDigits(n: nat, width: nat)
    ensures forall i :: 0 <= i < |PadZero(NatToString(n), width)| ==> IsDigit(PadZero(NatToString(n), width)[i])
    ensures ParseNat(PadZero(NatToString(n), width)) == n
  {
    var s := NatToString(n);
    ParseNatToString(n);
    if |s| < width {
      ParseNatLeadingZeros(Repeat('0', width - |s|), s);
    }
  }

  /** The clock reads back: the part before the colon is the minutes, the two digits after it the seconds. */
  lemma FormatTimeReadsBack(seconds: nat)
    ensures var r := FormatTime(seconds);
      (forall i :: 0 <= i < |r| - 3 ==> IsDigit(r[i]))
      && (forall i :: |r| - 2 <= i < |r| ==> IsDigit(r[i]))
      && ParseNat(r[..|r| - 3]) == seconds / 60
      && ParseNat(r[|r| - 2..]) == seconds % 60
  {
    var r := FormatTime(seconds);
    var m := PadZero(NatToString(seconds / 60), 2);
    var s := PadZero(NatToString(seconds % 60), 2);
    TwoDigitsBelow100(seconds % 60);
    assert r[..|r| - 3] == m;
    assert r[|r| - 2..] == s;
    PadZeroDigits(seconds / 60, 2);
    PadZeroDigits(seconds % 60, 2);
  }

  datatype MicPermission = Prompt | Granted | Denied

  /** How `getUserMedia` ended: a stream, or an error with its name, or a thrown non-`Error`. */
  datatype MicAnswer = Stream | ErrorNamed(name: string) | NonErrorThrown

  /** The storage's answer to the upload. */
  datatype UploadAnswer = Stored | UploadFailed(message: string)

  /** The transcription service's answer. */
  datatype TranscriptionAnswer = TranscriptionOk(transcription: Option<string>) | TranscriptionNotOk | Unreachable

  datatype AudioBlob = AudioBlob(chunks: seq<nat>, blobType: string)

  /** What `onRecordingComplete` receives. */
  datatype Completion = Completion(url: string, transcription: Option<string>)

  const DeniedMessage: string := "Accès au microphone refusé. Autorisez l'accès dans les paramètres de votre navigateur."
  const NoMicMessage: string := "Aucun microphone détecté sur cet appareil."
  const MicFailedMessage: string := "Impossible d'accéder au microphone. Vérifiez vos paramètres."
  const MissingBucketMessage: string := "Le bucket \"audio\" n'existe pas. Demandez à l'administrateur de le créer."
  const UploadFailedMessage: string := "Une erreur est survenue lors de l'upload. Veuillez réessayer."

  /** The error shown when the microphone cannot be opened. */
  function MicError(answer: MicAnswer): (e: Option<string>)
    ensures answer.Stream? || answer.NonErrorThrown? ==> e.None?
    ensures answer.ErrorNamed? ==> e.Some?
    ensures e == Some(DeniedMessage) <==>
      answer.ErrorNamed? && (answer.name == "NotAllowedError" || answer.name == "PermissionDeniedError")
  {
    match answer
    case Stream => None
    case NonErrorThrown => None
    case ErrorNamed(name) =>
      if name == "NotAllowedError" || name == "PermissionDeniedError" then Some(DeniedMessage)
      else if name == "NotFoundError" then Some(NoMicMessage)
      else Some(MicFailedMessage)
  }

  class Recorder {
    var isRecording: bool
    var hasRecorder: bool
    var timerRunning: bool
    var mimeType: string
    var chunks: seq<nat>
    var audioBlob: Option<AudioBlob>
    var audioUrl: Option<string>
    var isPlaying: bool
    var isUploading: bool
    var recordingTime: nat
    var error: Option<string>
    var micPermission: MicPermission

    /** A recorder showing the note already saved, if there is one (`existingUrl || null`). */
    constructor(existingUrl: Option<string>)
      ensures audioUrl == OrNull(existingUrl)
      ensures !isRecording && !hasRecorder && !timerRunning && !isPlaying && !isUploading
      ensures audioBlob.None? && chunks == [] && recordingTime == 0 && error.None? && micPermission == Prompt
    {
      isRecording, hasRecorder, timerRunning := false, false, false;
      mimeType, chunks, audioBlob := "", [], None;
      audioUrl := OrNull(existingUrl);
      isPlaying, isUploading, recordingTime := false, false, 0;
      error, micPermission := None, Prompt;
    }

    /**
     * `startRecording`: with a stream, a fresh recording starts in the best
     * supported format with an empty buffer, the clock at zero and the
     * microphone marked granted; otherwise the error is explained (the
     * permission marked denied when it was refused) and nothing starts.
     */
    method StartRecording(answer: MicAnswer, supported: set<string>)
      modifies this
      ensures answer.Stream? ==>
        isRecording && hasRecorder && timerRunning && chunks == [] && recordingTime == 0
        && mimeType == ChooseMimeType(supported) && micPermission == Granted && error.None?
      ensures !answer.Stream? ==>
        isRecording == old(isRecording) && hasRecorder == old(hasRecorder) && timerRunning == old(timerRunning)
        && chunks == old(chunks) && recordingTime == old(recordingTime) && mimeType == old(mimeType)
        && error == MicError(answer)
      ensures !answer.Stream? ==>
        micPermission == (if MicError(answer) == Some(DeniedMessage) then Denied else old(micPermission))
      ensures audioBlob == old(audioBlob) && audioUrl == old(audioUrl) && isPlaying == old(isPlaying)
      ensures isUploading == old(isUploading)
    {
      error := None;
      if answer.Stream? {
        mimeType := ChooseMimeType(supported);
        hasRecorder := true;
        chunks := [];
        isRecording := true;
        recordingTime := 0;
        timerRunning := true;
        micPermission := Granted;
      } else {
        error := MicError(answer);
        if error == Some(DeniedMessage) {
          micPermission := Denied;
        }
      }
    }

    /** `ondataavailable`: only non-empty chunks are kept, in arrival order. */
    method DataAvailable(size: nat)
      modifies this
      ensures chunks == if size > 0 then old(chunks) + [size] else old(chunks)
      ensures isRecording == old(isRecording) && recordingTime == old(recordingTime)
      ensures audioBlob == old(audioBlob) && audioUrl == old(audioUrl)
    {
      if size > 0 {
        chunks := chunks + [size];
      }
    }

    /** The one-second timer: the clock advances only while it runs. */
    method Tick()
      modifies this
      ensures recordingTime == if old(timerRunning) then old(recordingTime) + 1 else old(recordingTime)
      ensures timerRunning == old(timerRunning) && isRecording == old(isRecording) && chunks == old(chunks)
    {
      if timerRunning {
        recordingTime := recordingTime + 1;
      }
    }

    /** `stopRecording`: a no-op unless recording; otherwise recording and the timer stop. */
    method StopRecording()
      modifies this
      ensures !(old(hasRecorder) && old(isRecording)) ==>
        isRecording == old(isRecording) && timerRunning == old(timerRunning)
      ensures old(hasRecorder) && old(isRecording) ==> !isRecording && !timerRunning
      ensures chunks == old(chunks) && recordingTime == old(recordingTime) && hasRecorder == old(hasRecorder)
      ensures audioBlob == old(audioBlob) && audioUrl == old(audioUrl) && error == old(error)
    {
      if hasRecorder && isRecording {
        isRecording := false;
        timerRunning := false;
      }
    }

    /** The recorder's `onstop`: the buffered chunks become the blob, of the recording's type, shown at `objectUrl`. */
    method RecorderStopped(objectUrl: string)
      modifies this
      ensures audioBlob == Some(AudioBlob(old(chunks), BlobType(old(mimeType))))
      ensures audioUrl == Some(objectUrl)
      ensures chunks == old(chunks) && isRecording == old(isRecording) && recordingTime == old(recordingTime)
    {
      audioBlob := Some(AudioBlob(chunks, BlobType(mimeType)));
      audioUrl := Some(objectUrl);
    }

    /** `togglePlayback`: nothing without a URL, else play or pause. */
    method TogglePlayback()
      modifies this
      ensures old(audioUrl).None? ==> isPlaying == old(isPlaying)
      ensures old(audioUrl).Some? ==> isPlaying == !old(isPlaying)
      ensures audioUrl == old(audioUrl) && audioBlob == old(audioBlob)
    {
      if audioUrl.None? {
        return;
      }
      isPlaying := !isPlaying;
    }

    /** `deleteRecording`: the blob, its URL, playback, the clock and the error are all reset. */
    method DeleteRecording()
      modifies this
      ensures audioBlob.None? && audioUrl.None? && !isPlaying && recordingTime == 0 && error.None?
      ensures isRecording == old(isRecording) && chunks == old(chunks) && micPermission == old(micPermission)
    {
      audioBlob := None;
      audioUrl := None;
      isPlaying := false;
      recordingTime := 0;
      error := None;
    }

    /**
     * `uploadRecording`: nothing without a blob. A failed upload sets an
     * error (the missing-bucket one when the message names a bucket or
     * something not found) and completes nothing. A stored file always
     * completes with its public URL; the transcription comes along only
     * when the service answered ok.
     */
    method UploadRecording(interventionId: string, timestamp: nat, upload: UploadAnswer,
                           transcription: TranscriptionAnswer)
      returns (done: Option<Completion>)
      modifies this
      ensures old(audioBlob).None? ==> done.None? && error == old(error) && isUploading == old(isUploading)
      ensures old(audioBlob).Some? ==> !isUploading
      ensures old(audioBlob).Some? && upload.UploadFailed? ==>
        done.None? && error.Some?
        && (error == Some(MissingBucketMessage) <==>
             Includes(upload.message, "bucket") || Includes(upload.message, "not found"))
      ensures old(audioBlob).Some? && upload.Stored? ==>
        var url := PublicUrl(AudioFileName(interventionId, timestamp, old(audioBlob).value.blobType));
        done.Some? && done.value.url == url && error.None?
        && (done.value.transcription.Some? <==> transcription.TranscriptionOk? && transcription.transcription.Some?)
        && (transcription.TranscriptionOk? ==> done.value.transcription == transcription.transcription)
      ensures audioBlob == old(audioBlob) && audioUrl == old(audioUrl)
    {
      if audioBlob.None? {
        return None;
      }
      isUploading := true;
      error := None;
      var fileName := AudioFileName(interventionId, timestamp, audioBlob.value.blobType);
      match upload {
        case UploadFailed(message) =>
          if Includes(message, "bucket") || Includes(message, "not found") {
            error := Some(MissingBucketMessage);
          } else {
            error := Some(UploadFailedMessage);
          }
          done := None;
        case Stored =>
          var url := PublicUrl(fileName);
          match transcription {
            case TranscriptionOk(t) => done := Some(Completion(url, t));
            case TranscriptionNotOk => done := Some(Completion(url, None));
            case Unreachable => done := Some(Completion(url, None));
          }
      }
      isUploading := false;
    }
  }
}
