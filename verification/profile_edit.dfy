/**
 * components/user/ProfileEdit.tsx: the profile editor on the my-page. It
 * accepts an image file only when its MIME type is an image type and it is
 * at most 5 MiB, and hands a trimmed, non-blank nickname to its `onSave`
 * callback. Reading the file is the browser's `FileReader`; its data URL is
 * a parameter here.
 */
module ProfileEdit {
  import opened Text
  import opened Wrappers
  import opened Session
  import opened MyPage

  const NotAnImageMessage := "이미지 파일만 업로드 가능합니다."
  const TooLargeMessage := "이미지 크기는 5MB 이하여야 합니다."
  const NicknameMissingMessage := "닉네임을 입력해주세요."

  /** The MIME type prefix of an image file. */
  const ImageTypePrefix := "image/"

  /** The largest accepted file, in bytes (5 MiB). */
  const MaxImageBytes := 5 * 1024 * 1024

  /** The editor's state: the nickname field, the image to save, and the image shown. */
  datatype EditorState = EditorState(nickname: string, profileImage: Option<string>, previewImage: Option<string>)

  /** The state the editor opens with. */
  function OpenEditor(initialNickname: string, initialProfileImage: Option<string>): EditorState {
    EditorState(initialNickname, initialProfileImage, initialProfileImage)
  }

  /** A file chosen in the file input: its MIME type and its size in bytes. */
  datatype PickedFile = PickedFile(mimeType: string, size: nat)

  /** Why a file was refused. */
  function FileRefusal(f: PickedFile): (r: Option<string>)
    ensures r.None? <==> StartsWith(f.mimeType, ImageTypePrefix) && f.size <= MaxImageBytes
    ensures !StartsWith(f.mimeType, ImageTypePrefix) ==> r == Some(NotAnImageMessage)
    ensures StartsWith(f.mimeType, ImageTypePrefix) && f.size > MaxImageBytes ==> r == Some(TooLargeMessage)
  {
    if !StartsWith(f.mimeType, ImageTypePrefix) then Some(NotAnImageMessage)
    else if f.size > MaxImageBytes then Some(TooLargeMessage)
    else None
  }

  /**
   * `handleImageChange`: with no file nothing happens; a refused file raises
   * an alert and leaves the state as it was; an accepted file, once read as
   * `dataUrl`, becomes both the image to save and the image shown. The
   * nickname is never touched.
   */
  function ChangeImage(s: EditorState, file: Option<PickedFile>, dataUrl: string): (r: (EditorState, Option<string>))
    ensures r.0.nickname == s.nickname
    ensures file.None? ==> r == (s, None)
    ensures file.Some? && FileRefusal(file.value).Some? ==> r == (s, FileRefusal(file.value))
    ensures file.Some? && FileRefusal(file.value).None? ==>
      r.1.None? && r.0.profileImage == Some(dataUrl) && r.0.previewImage == Some(dataUrl)
  {
    match file
    case None => (s, None)
    case Some(f) =>
      match FileRefusal(f)
      case Some(message) => (s, Some(message))
      case None => (s.(profileImage := Some(dataUrl), previewImage := Some(dataUrl)), None)
  }

  /** The size limit is inclusive: an image of exactly 5 MiB is taken, one byte more is refused. */
  lemma SizeLimitInclusive(mimeType: string, dataUrl: string, s: EditorState)
    requires StartsWith(mimeType, ImageTypePrefix)
    ensures ChangeImage(s, Some(PickedFile(mimeType, MaxImageBytes)), dataUrl).1.None?
    ensures ChangeImage(s, Some(PickedFile(mimeType, MaxImageBytes + 1)), dataUrl) == (s, Some(TooLargeMessage))
  {
  }

  /** The type is checked first: an oversized non-image file is refused as not an image. */
  lemma TypeCheckedBeforeSize(size: nat)
    requires size > MaxImageBytes
    ensures FileRefusal(PickedFile("text/plain", size)) == Some(NotAnImageMessage)
  {
    assert "text/plain"[0] != ImageTypePrefix[0];
  }

  /** What pressing "save" does: an alert, or a call of `onSave`. */
  datatype SaveAction = Alerted(message: string) | CalledOnSave(nickname: string, profileImage: Option<string>)

  /** `handleSave`: a blank nickname is refused; otherwise `onSave` gets it trimmed, with the current image. */
  function Save(s: EditorState): (a: SaveAction)
    ensures a.Alerted? <==> IsBlank(s.nickname)
    ensures a.Alerted? ==> a.message == NicknameMissingMessage
    ensures a.CalledOnSave? ==> a.nickname == Trim(s.nickname) && a.nickname != "" && a.profileImage == s.profileImage
  {
    TrimEmptyIffBlank(s.nickname);
    if Trim(s.nickname) == "" then Alerted(NicknameMissingMessage)
    else CalledOnSave(Trim(s.nickname), s.profileImage)
  }

  /** `handleRemoveImage`: both the image to save and the image shown are cleared. */
  function RemoveImage(s: EditorState): (r: EditorState)
    ensures r.profileImage.None? && r.previewImage.None?
    ensures r.nickname == s.nickname
  {
    s.(profileImage := None, previewImage := None)
  }

  /**
   * Saving twice changes nothing more: the nickname the editor hands on is
   * already trimmed, so an editor opened on it saves the same thing.
   */
  lemma SaveIsStable(s: EditorState)
    requires Save(s).CalledOnSave?
    ensures Save(OpenEditor(Save(s).nickname, Save(s).profileImage)) == Save(s)
  {
    TrimIdempotent(s.nickname);
  }

  /**
   * Through the my-page's `handleSaveProfile`, a save from the editor is
   * what the page shows next: the trimmed nickname, and no image after the
   * image was removed.
   */
  lemma SavedProfileIsShown(s: EditorState, storage: Storage)
    requires Save(s).CalledOnSave?
    ensures var a := Save(s);
      var u := LoadUserInfo(ApplyWrites(storage, SaveProfile(a.nickname, a.profileImage)));
      && u.nickname == Trim(s.nickname)
      && (s.profileImage.None? ==> u.profileImage.None?)
  {
    var a := Save(s);
    SaveThenLoad(storage, a.nickname, a.profileImage);
  }

  /** After "remove image", saving clears the stored image. */
  lemma RemoveThenSaveClearsImage(s: EditorState, storage: Storage)
    requires !IsBlank(s.nickname)
    ensures var a := Save(RemoveImage(s));
      a.CalledOnSave? && LoadUserInfo(ApplyWrites(storage, SaveProfile(a.nickname, a.profileImage))).profileImage.None?
  {
    SavedProfileIsShown(RemoveImage(s), storage);
  }
}
