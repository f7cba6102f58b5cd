/**
 * The submission form of the main screen (frontend/src/components/MainPage.tsx):
 * five pieces of component state, the handlers that update them, the save
 * guard with its reset, and the derived `isSaveDisabled` flag.
 */
module SubmissionForm {
  import opened Wrappers
  import opened JsText
  import opened Web

  /** Longest nickname the form accepts, in UTF-16 code units. */
  const MaxNicknameChars: nat := 10
  /** Longest message the form accepts, in UTF-16 code units. */
  const MaxMessageChars: nat := 30

  /** One call of `onSave(uploadedFile, fullImageFile, nickname, message)`. */
  datatype SaveCall = SaveCall(croppedFile: File, fullFile: File, nickname: string, message: string)

  /** The condition `handleSave` tests: both files present and a message that is not blank. */
  predicate SaveGuard(uploadedFile: Option<File>, fullImageFile: Option<File>, message: string)
  {
    uploadedFile.Some? && fullImageFile.Some? && !IsBlank(message)
  }

  /** The guard as the code writes it: `uploadedFile && fullImageFile && message.trim()`. */
  lemma SaveGuardIsTrimTest(uploadedFile: Option<File>, fullImageFile: Option<File>, message: string)
    ensures SaveGuard(uploadedFile, fullImageFile, message) <==>
      uploadedFile.Some? && fullImageFile.Some? && Trim(message) != []
  {
    BlankIffAllWhitespace(message);
  }

  /**
   * `isSaveDisabled`: a file missing, or a blank nickname, or a blank
   * message; the ensures states it with `trim()`, as the code does.
   */
  predicate SaveDisabled(uploadedFile: Option<File>, fullImageFile: Option<File>, nickname: string, message: string)
    ensures SaveDisabled(uploadedFile, fullImageFile, nickname, message) <==>
      uploadedFile.None? || fullImageFile.None? || Trim(nickname) == [] || Trim(message) == []
  {
    BlankIffAllWhitespace(nickname);
    BlankIffAllWhitespace(message);
    uploadedFile.None? || fullImageFile.None? || IsBlank(nickname) || IsBlank(message)
  }

  /**
   * The button is enabled exactly when the save guard holds and the nickname
   * is not blank; so an enabled button always passes the guard.
   */
  lemma EnabledIsGuardWithNickname(uploadedFile: Option<File>, fullImageFile: Option<File>, nickname: string, message: string)
    ensures !SaveDisabled(uploadedFile, fullImageFile, nickname, message)
      <==> SaveGuard(uploadedFile, fullImageFile, message) && !IsBlank(nickname)
    ensures !SaveDisabled(uploadedFile, fullImageFile, nickname, message)
      ==> SaveGuard(uploadedFile, fullImageFile, message)
  {
  }

  /** The converse fails: with a blank nickname the button is disabled, yet the guard holds. */
  lemma BlankNicknamePassesGuard(f: File)
    ensures SaveGuard(Some(f), Some(f), "hi")
    ensures SaveDisabled(Some(f), Some(f), "", "hi")
  {
    assert !IsJsWhitespace("hi"[0]);
  }

  class MainPage {
    var uploadedFile: Option<File>
    var fullImageFile: Option<File>
    var uploadedImage: Option<string>
    var nickname: string
    var message: string

    /** The length bounds every handler keeps. */
    predicate Valid()
      reads this
    {
      Utf16Length(nickname) <= MaxNicknameChars && Utf16Length(message) <= MaxMessageChars
    }

    /** The initial `useState` values: no files, no preview, empty texts. */
    constructor ()
      ensures Valid()
      ensures uploadedFile == None && fullImageFile == None && uploadedImage == None
      ensures nickname == "" && message == ""
    {
      uploadedFile, fullImageFile, uploadedImage := None, None, None;
      nickname, message := "", "";
    }

    /** `handleImageUpload`: store both files and the preview; the texts are untouched. */
    method HandleImageUpload(croppedFile: File, croppedPreviewUrl: string, fullFile: File)
      requires Valid()
      modifies this
      ensures Valid()
      ensures uploadedFile == Some(croppedFile) && fullImageFile == Some(fullFile)
      ensures uploadedImage == Some(croppedPreviewUrl)
      ensures nickname == old(nickname) && message == old(message)
    {
      uploadedFile := Some(croppedFile);
      fullImageFile := Some(fullFile);
      uploadedImage := Some(croppedPreviewUrl);
    }

    /**
     * `handleSave`: when the guard holds, call `onSave` with the current
     * state and reset all five fields; otherwise do nothing at all.
     */
    method HandleSave() returns (call: Option<SaveCall>)
      requires Valid()
      modifies this
      ensures Valid()
      ensures old(SaveGuard(uploadedFile, fullImageFile, message)) ==>
        && call == Some(SaveCall(old(uploadedFile).value, old(fullImageFile).value, old(nickname), old(message)))
        && uploadedFile == None && fullImageFile == None && uploadedImage == None
        && nickname == "" && message == ""
      ensures !old(SaveGuard(uploadedFile, fullImageFile, message)) ==>
        call == None && unchanged(this)
    {
      call := None;
      if SaveGuard(uploadedFile, fullImageFile, message) {
        call := Some(SaveCall(uploadedFile.value, fullImageFile.value, nickname, message));
        uploadedFile, fullImageFile, uploadedImage, nickname, message := None, None, None, "", "";
        assert Utf16Length("") == 0;
      }
    }

    /** `handleNicknameChange`: take the new text only if it fits; an over-long one is refused, not cut. */
    method HandleNicknameChange(value: string)
      requires Valid()
      modifies this
      ensures Valid()
      ensures nickname == if Utf16Length(value) <= MaxNicknameChars then value else old(nickname)
      ensures message == old(message) && uploadedFile == old(uploadedFile)
      ensures fullImageFile == old(fullImageFile) && uploadedImage == old(uploadedImage)
    {
      if Utf16Length(value) <= MaxNicknameChars {
        nickname := value;
      }
    }

    /** `handleMessageChange`: take the new text only if it fits; an over-long one is refused, not cut. */
    method HandleMessageChange(value: string)
      requires Valid()
      modifies this
      ensures Valid()
      ensures message == if Utf16Length(value) <= MaxMessageChars then value else old(message)
      ensures nickname == old(nickname) && uploadedFile == old(uploadedFile)
      ensures fullImageFile == old(fullImageFile) && uploadedImage == old(uploadedImage)
    {
      if Utf16Length(value) <= MaxMessageChars {
        message := value;
      }
    }
  }

  /** A message of exactly 30 characters is accepted, one of 31 is refused. */
  lemma MessageBoundary(value: string)
    requires forall i :: 0 <= i < |value| ==> value[i] as int <= 0xFFFF
    ensures |value| == 30 ==> Utf16Length(value) <= MaxMessageChars
    ensures |value| == 31 ==> Utf16Length(value) > MaxMessageChars
  {
  }
}
