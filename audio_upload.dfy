/**
 * The audio upload component: it keeps the `error` it displays and hands each
 * accepted file to its `onFileSelect` callback. The callback is modelled by
 * the log `selected` of the files it has been given, in order.
 */
module AudioUploadComponent {
  import opened JsValues

  const Mp3Type := "audio/mp3"
  const WavType := "audio/wav"
  const InvalidFileType := "Invalid file type. Please upload an MP3 or WAV file."

  /** A browser `File`: its name and its MIME `type`. */
  datatype File = File(name: string, mimeType: string)

  /** `validTypes.includes(file.type)`: an exact match, with no normalisation of case or parameters. */
  predicate ValidType(mimeType: string) {
    mimeType in [Mp3Type, WavType]
  }

  /** `files?.[0]`: the first file of an optional list, undefined for a missing or empty list. */
  function FirstFile(files: Option<seq<File>>): (f: Option<File>)
    ensures f.Some? <==> files.Some? && |files.value| > 0
    ensures f.Some? ==> f.value == files.value[0]
  {
    match files
    case None => None
    case Some(list) => if |list| == 0 then None else Some(list[0])
  }

  class AudioUpload {
    /** The `error` state; `null` is `None`. */
    var error: Option<string>
    /** Every file passed to `onFileSelect`, oldest first. */
    var selected: seq<File>

    constructor ()
      ensures error == None && selected == []
    {
      error := None;
      selected := [];
    }

    /** `validateFile`: accept an MP3 or WAV file, otherwise show the error. */
    method ValidateFile(file: File)
      modifies this
      ensures ValidType(file.mimeType) ==> error == None && selected == old(selected) + [file]
      ensures !ValidType(file.mimeType) ==> error == Some(InvalidFileType) && selected == old(selected)
    {
      if ValidType(file.mimeType) {
        error := None;
        selected := selected + [file];
      } else {
        error := Some(InvalidFileType);
      }
    }

    /** `handleFileSelect`: validate the first chosen file; with none chosen nothing happens. */
    method HandleFileSelect(files: Option<seq<File>>)
      modifies this
      ensures FirstFile(files).None? ==> error == old(error) && selected == old(selected)
      ensures FirstFile(files).Some? && ValidType(FirstFile(files).value.mimeType) ==>
                error == None && selected == old(selected) + [FirstFile(files).value]
      ensures FirstFile(files).Some? && !ValidType(FirstFile(files).value.mimeType) ==>
                error == Some(InvalidFileType) && selected == old(selected)
    {
      var file := FirstFile(files);
      if file.Some? {
        ValidateFile(file.value);
      }
    }

    /**
     * `handleDrop`: validate the first dropped file and ignore the rest. An
     * empty drop hands `undefined` to `validateFile`, whose `file.type` throws
     * before any state changes; `threw` reports that.
     */
    method HandleDrop(files: seq<File>) returns (threw: bool)
      modifies this
      ensures threw <==> |files| == 0
      ensures threw ==> error == old(error) && selected == old(selected)
      ensures !threw && ValidType(files[0].mimeType) ==> error == None && selected == old(selected) + [files[0]]
      ensures !threw && !ValidType(files[0].mimeType) ==> error == Some(InvalidFileType) && selected == old(selected)
    {
      if |files| == 0 {
        return true;
      }
      ValidateFile(files[0]);
      return false;
    }
  }

  /** A file dropped after the first never reaches the callback, whatever its type. */
  method DropIgnoresLaterFiles(first: File, rest: seq<File>) returns (component: AudioUpload)
    ensures component.selected == if ValidType(first.mimeType) then [first] else []
    ensures component.error == if ValidType(first.mimeType) then None else Some(InvalidFileType)
  {
    component := new AudioUpload();
    var threw := component.HandleDrop([first] + rest);
  }

  /** Choosing an MP3 file passes that file to the callback and shows no error. */
  method AcceptsValidAudioFiles() returns (component: AudioUpload)
    ensures component.selected == [File("test.mp3", Mp3Type)] && component.error == None
  {
    component := new AudioUpload();
    component.HandleFileSelect(Some([File("test.mp3", Mp3Type)]));
  }

  /** Choosing a text file never reaches the callback and shows the invalid-type error. */
  method RejectsInvalidFileTypes() returns (component: AudioUpload)
    ensures component.selected == [] && component.error == Some(InvalidFileType)
  {
    component := new AudioUpload();
    assert !ValidType("text/plain");
    component.HandleFileSelect(Some([File("test.txt", "text/plain")]));
  }
}
