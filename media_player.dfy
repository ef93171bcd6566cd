/**
 * The playback state of developers/OS/Qintergrate/quantum-media-player.js.
 * A file name is classified by its extension into "qmp3", "qmp4", "qgame"
 * or "unknown"; the player's `state` record (loaded, playing, entropy, file
 * type) is a `MediaPlayer` object whose methods flip its fields. The
 * DOM elements are reduced to which media element a call would drive.
 */
module MediaPlayer {
  import opened Wrappers

  /** Where the extension starts: just after the last '.', or 0 when the name has none. */
  function ExtensionStart(name: string): (k: nat)
    ensures k <= |name|
  {
    if |name| == 0 then 0
    else if name[|name| - 1] == '.' then |name|
    else ExtensionStart(name[..|name| - 1])
  }

  /** The text after the last '.', or the whole name when it has none: `name.split(".").pop()`. */
  function Extension(name: string): (r: string)
    ensures |r| <= |name| && r == name[|name| - |r|..]
    ensures '.' !in r
    ensures |r| < |name| ==> name[|name| - |r| - 1] == '.'
  {
    ExtensionIsLastPart(name);
    name[ExtensionStart(name)..]
  }

  /** No dot follows the extension's start, and when the start is not 0 a dot precedes it. */
  lemma {:induction false} ExtensionIsLastPart(name: string)
    ensures forall i :: ExtensionStart(name) <= i < |name| ==> name[i] != '.'
    ensures ExtensionStart(name) > 0 ==> name[ExtensionStart(name) - 1] == '.'
  {
    if |name| > 0 && name[|name| - 1] != '.' {
      var init := name[..|name| - 1];
      ExtensionIsLastPart(init);
      assert ExtensionStart(name) == ExtensionStart(init);
    }
  }

  /** A name made of a base, a dot and a dot-free extension has exactly that extension. */
  lemma {:induction false} ExtensionAfterDot(base: string, ext: string)
    requires '.' !in ext
    ensures ExtensionStart(base + "." + ext) == |base| + 1
    ensures Extension(base + "." + ext) == ext
  {
    var name := base + "." + ext;
    if |ext| > 0 {
      assert name[..|name| - 1] == base + "." + ext[..|ext| - 1];
      assert name[|name| - 1] == ext[|ext| - 1];
      ExtensionAfterDot(base, ext[..|ext| - 1]);
    } else {
      assert name[|name| - 1] == '.';
    }
    assert name[|base| + 1..] == ext;
  }

  /** A name without a dot is its own extension. */
  lemma {:induction false} ExtensionWithoutDot(name: string)
    requires '.' !in name
    ensures ExtensionStart(name) == 0
    ensures Extension(name) == name
  {
    if |name| > 0 {
      assert name[|name| - 1] in name;
      var init := name[..|name| - 1];
      assert forall c :: c in init ==> c in name;
      ExtensionWithoutDot(init);
    }
  }

  /** `toLowerCase()` on the ASCII letters. */
  function LowerChar(c: char): (r: char)
    ensures 'A' <= c <= 'Z' ==> r as int == c as int + 32
    ensures !('A' <= c <= 'Z') ==> r == c
  {
    if 'A' <= c <= 'Z' then (c as int + 32) as char else c
  }

  function Lower(s: string): (r: string)
    ensures |r| == |s|
    ensures forall i :: 0 <= i < |s| ==> r[i] == LowerChar(s[i])
  {
    seq(|s|, i requires 0 <= i < |s| => LowerChar(s[i]))
  }

  /** The own entries of `typeMap`. */
  function TypeMap(): map<string, string>
  {
    map["mp3" := "qmp3", "wav" := "qmp3",
        "mp4" := "qmp4", "mov" := "qmp4", "avi" := "qmp4", "webm" := "qmp4",
        "exe" := "qgame", "zip" := "qgame"]
  }

  /** What `typeMap[extension]` reads on a plain object literal. */
  datatype Lookup =
    | Own(fileType: string)
    /** A member every object inherits from `Object.prototype`: a function or the prototype itself. */
    | Inherited(member: string)
    | Missing

  /** The lower-case names under which `Object.prototype` answers a property read. */
  predicate IsInheritedKey(key: string)
  {
    key == "constructor" || key == "__proto__"
  }

  /** `typeMap[extension]`, with the inherited members a plain object answers. */
  function ReadTypeMap(key: string): (r: Lookup)
    ensures r.Own? <==> key in TypeMap()
    ensures r.Inherited? <==> IsInheritedKey(key)
  {
    if key in TypeMap() then Own(TypeMap()[key])
    else if IsInheritedKey(key) then Inherited(key)
    else Missing
  }

  /**
   * `detectFileType(file)` as written: `typeMap[extension] || "unknown"`.
   * An inherited member is truthy, so it is returned instead of "unknown".
   */
  function DetectFileTypeAsWritten(name: string): (r: Lookup)
    ensures r.Missing? ==> false
  {
    match ReadTypeMap(Lower(Extension(name)))
    case Missing => Own("unknown")
    case other => other
  }

  /** A file named "x.constructor" is given the inherited constructor, not a file type. */
  lemma ConstructorExtensionIsInherited()
    ensures DetectFileTypeAsWritten("x.constructor") == Inherited("constructor")
  {
    var key := "constructor";
    ExtensionAfterDot("x", key);
    assert forall i :: 0 <= i < |key| ==> !('A' <= key[i] <= 'Z');
    assert Lower(key) == key;
    assert |key| == 11 && key !in TypeMap();
    assert ReadTypeMap(key) == Inherited(key);
    assert "x" + "." + key == "x.constructor";
  }

  /**
   * `detectFileType(file)` as intended: the file type of the lower-cased
   * extension, and "unknown" for anything `typeMap` does not list.
   */
  function DetectFileType(name: string): (r: string)
    ensures Lower(Extension(name)) in TypeMap() ==> r == TypeMap()[Lower(Extension(name))]
    ensures Lower(Extension(name)) !in TypeMap() ==> r == "unknown"
  {
    var extension := Lower(Extension(name));
    if extension in TypeMap() then TypeMap()[extension] else "unknown"
  }

  /** The intended detection always yields one of the four types, and agrees with the written one away from inherited names. */
  lemma DetectFileTypeCases(name: string)
    ensures DetectFileType(name) in {"qmp3", "qmp4", "qgame", "unknown"}
    ensures !IsInheritedKey(Lower(Extension(name))) ==> DetectFileTypeAsWritten(name) == Own(DetectFileType(name))
  {
  }

  /** Audio, video and program extensions, in either case, map as the table says. */
  lemma DetectFileTypeTable(base: string, ext: string)
    requires '.' !in ext
    ensures Lower(ext) in {"mp3", "wav"} ==> DetectFileType(base + "." + ext) == "qmp3"
    ensures Lower(ext) in {"mp4", "mov", "avi", "webm"} ==> DetectFileType(base + "." + ext) == "qmp4"
    ensures Lower(ext) in {"exe", "zip"} ==> DetectFileType(base + "." + ext) == "qgame"
    ensures Lower(ext) !in TypeMap() ==> DetectFileType(base + "." + ext) == "unknown"
  {
    ExtensionAfterDot(base, ext);
  }

  /** The element `play` and `pause` drive for a file type. */
  datatype MediaElement = AudioElement | VideoElement | NoElement

  function ElementFor(fileType: Option<string>): (e: MediaElement)
    ensures e == AudioElement <==> fileType == Some("qmp3")
    ensures e == VideoElement <==> fileType == Some("qmp4")
  {
    if fileType == Some("qmp3") then AudioElement
    else if fileType == Some("qmp4") then VideoElement
    else NoElement
  }

  /** What `prepareMediaPlayback` does once the file is read. */
  datatype Preparation = EnableAudio | EnableVideo | GameFile | Unsupported

  function PrepareMediaPlayback(fileType: Option<string>): (p: Preparation)
    ensures p == EnableAudio <==> fileType == Some("qmp3")
    ensures p == EnableVideo <==> fileType == Some("qmp4")
    ensures p == GameFile <==> fileType == Some("qgame")
  {
    if fileType == Some("qmp3") then EnableAudio
    else if fileType == Some("qmp4") then EnableVideo
    else if fileType == Some("qgame") then GameFile
    else Unsupported
  }

  /** The play button is enabled exactly for the types `play` has an element for. */
  lemma EnabledIffPlayable(fileType: Option<string>)
    ensures (PrepareMediaPlayback(fileType) in {EnableAudio, EnableVideo}) <==> ElementFor(fileType) != NoElement
  {
  }

  class MediaPlayer {
    var isLoaded: bool
    var isPlaying: bool
    var quantumEntropy: real
    var fileType: Option<string>

    /** A new player: nothing loaded, not playing, entropy 0, no file type. */
    constructor ()
      ensures !isLoaded && !isPlaying && quantumEntropy == 0.0 && fileType == None
    {
      isLoaded := false;
      isPlaying := false;
      quantumEntropy := 0.0;
      fileType := None;
    }

    /** `play()`: starts the file type's element, if any, and marks the player playing. */
    method Play() returns (started: MediaElement)
      modifies this
      ensures started == ElementFor(fileType)
      ensures isPlaying
      ensures isLoaded == old(isLoaded) && quantumEntropy == old(quantumEntropy) && fileType == old(fileType)
    {
      if fileType == Some("qmp3") {
        started := AudioElement;
      } else if fileType == Some("qmp4") {
        started := VideoElement;
      } else {
        started := NoElement;
      }
      isPlaying := true;
    }

    /** `pause()`: pauses the file type's element, if any, and marks the player not playing. */
    method Pause() returns (paused: MediaElement)
      modifies this
      ensures paused == ElementFor(fileType)
      ensures !isPlaying
      ensures isLoaded == old(isLoaded) && quantumEntropy == old(quantumEntropy) && fileType == old(fileType)
    {
      if fileType == Some("qmp3") {
        paused := AudioElement;
      } else if fileType == Some("qmp4") {
        paused := VideoElement;
      } else {
        paused := NoElement;
      }
      isPlaying := false;
    }

    /** `togglePlayback()`: pauses when playing and plays otherwise, so the flag is negated. */
    method TogglePlayback()
      modifies this
      ensures isPlaying == !old(isPlaying)
      ensures isLoaded == old(isLoaded) && quantumEntropy == old(quantumEntropy) && fileType == old(fileType)
    {
      if isPlaying {
        var _ := Pause();
      } else {
        var _ := Play();
      }
    }

    /**
     * The synchronous part of `loadFile(file)`: the detected type is
     * recorded and the player is marked not loaded until decoding ends.
     */
    method LoadFile(name: string)
      modifies this
      ensures fileType == Some(DetectFileType(name)) && !isLoaded
      ensures isPlaying == old(isPlaying) && quantumEntropy == old(quantumEntropy)
    {
      fileType := Some(DetectFileType(name));
      isLoaded := false;
    }
  }
}
