/**
 * The organisation settings form of src/components/org-settings-form.tsx: the
 * logo file check, the drop handler, the upload handler's guards and the
 * state they leave, and the slug pattern.
 */
module OrgSettings {
  import opened Wrappers
  import opened JsStrings

  const MaxLogoBytes: int := 2 * 1024 * 1024
  const NotImageMessage: string := "请选择图片文件"
  const TooLargeMessage: string := "文件大小不能超过2MB"
  const TooManyFilesMessage: string := "一次只能上传一个文件"
  const NotAdminMessage: string := "您不是管理员，无法上传文件"
  const UploadedMessage: string := "头像上传成功"
  const UploadFailedMessage: string := "上传失败"

  /** The fields of a browser `File` the form reads. */
  datatype UploadFile = UploadFile(mimeType: string, size: int)

  /** `validateFile`: `None` when the file is accepted, otherwise the error shown. */
  function ValidateFile(f: UploadFile): (error: Option<string>)
    ensures error.None? <==> StartsWith(f.mimeType, "image/") && f.size <= MaxLogoBytes
    ensures !StartsWith(f.mimeType, "image/") ==> error == Some(NotImageMessage)
    ensures StartsWith(f.mimeType, "image/") && f.size > MaxLogoBytes ==> error == Some(TooLargeMessage)
  {
    if !StartsWith(f.mimeType, "image/") then Some(NotImageMessage)
    else if f.size > MaxLogoBytes then Some(TooLargeMessage)
    else None
  }

  /** The size limit is inclusive, and a wrong type is reported even for an oversized file. */
  lemma ValidateFileBoundaries()
    ensures ValidateFile(UploadFile("image/png", 2097152)).None?
    ensures ValidateFile(UploadFile("image/png", 2097153)) == Some(TooLargeMessage)
    ensures ValidateFile(UploadFile("text/plain", 2097153)) == Some(NotImageMessage)
  {
    assert !StartsWith("text/plain", "image/") by {
      assert "text/plain"[..6][0] == 't';
    }
  }

  /** `[a-z0-9-]`. */
  predicate IsSlugChar(c: char) {
    ('a' <= c <= 'z') || IsDigit(c) || c == '-'
  }

  /** `/^[a-z0-9-]+$/`. */
  predicate MatchesSlugPattern(slug: string) {
    |slug| > 0 && forall k :: 0 <= k < |slug| ==> IsSlugChar(slug[k])
  }

  /** The slug rule of this form: a pattern only, which react-hook-form skips for an empty value. */
  predicate SettingsSlugValid(slug: string) {
    slug == "" || MatchesSlugPattern(slug)
  }

  /** An empty slug passes, upper case and "_" do not. */
  lemma SettingsSlugExamples()
    ensures SettingsSlugValid("")
    ensures SettingsSlugValid("my-org-2")
    ensures !SettingsSlugValid("My-org")
    ensures !SettingsSlugValid("my_org")
  {
    assert !IsSlugChar("My-org"[0]);
    assert !IsSlugChar("my_org"[2]);
  }

  const SavedMessage: string := "设置已保存"
  const SaveFailedMessage: string := "保存失败"

  /** The toast `onSubmit` ends with: saved only when both the save and the refresh succeed. */
  function SubmitToast(saveSucceeded: bool, refreshSucceeded: bool): (toast: string)
    ensures toast == SavedMessage <==> saveSucceeded && refreshSucceeded
    ensures toast == SavedMessage || toast == SaveFailedMessage
  {
    if saveSucceeded && refreshSucceeded then SavedMessage else SaveFailedMessage
  }

  /** What the drop handler did with the dropped files. */
  datatype DropOutcome = NoFiles | TooManyFiles | Rejected(reason: string) | Uploaded

  /** The form's upload-related state. */
  class OrgSettingsPage {
    var isDragging: bool
    var dragRejectReason: Option<string>
    var isUploading: bool
    var previewUrl: Option<string>
    var logoUrl: Option<string>
    const curUserRole: string

    constructor (curUserRole: string, logoUrl: Option<string>)
      ensures !isDragging && dragRejectReason.None? && !isUploading && previewUrl.None?
      ensures this.logoUrl == logoUrl && this.curUserRole == curUserRole
    {
      isDragging := false;
      dragRejectReason := None;
      isUploading := false;
      previewUrl := None;
      this.logoUrl := logoUrl;
      this.curUserRole := curUserRole;
    }

    /**
     * `handleFileUpload`. A MEMBER only gets a warning toast: the upload goes on.
     * `uploadResult` is the URL the upload endpoint answers with, or `None` when
     * the request fails. Returns the toasts shown and whether the request was made.
     */
    method HandleFileUpload(file: UploadFile, uploadResult: Option<string>) returns (toasts: seq<string>, posted: bool)
      modifies this`isUploading, this`previewUrl, this`logoUrl
      ensures posted <==> ValidateFile(file).None?
      ensures |toasts| > 0
      ensures (NotAdminMessage in toasts) <==> curUserRole == "MEMBER"
      ensures !posted ==>
        logoUrl == old(logoUrl) && isUploading == old(isUploading) && previewUrl == old(previewUrl)
        && toasts[|toasts| - 1] == ValidateFile(file).value
      ensures posted && uploadResult.Some? ==> logoUrl == uploadResult && toasts[|toasts| - 1] == UploadedMessage
      ensures posted && uploadResult.None? ==> logoUrl == old(logoUrl) && toasts[|toasts| - 1] == UploadFailedMessage
      ensures posted ==> !isUploading && previewUrl.None?
    {
      toasts := [];
      if curUserRole == "MEMBER" {
        toasts := toasts + [NotAdminMessage];
      }
      var validation := ValidateFile(file);
      if validation.Some? {
        toasts := toasts + [validation.value];
        posted := false;
        return;
      }
      posted := true;
      isUploading := true;
      previewUrl := Some("blob:preview");
      if uploadResult.Some? {
        logoUrl := uploadResult;
        toasts := toasts + [UploadedMessage];
      } else {
        toasts := toasts + [UploadFailedMessage];
      }
      isUploading := false;
      previewUrl := None;
    }

    /**
     * `handleDrop`: nothing for no file, an error toast for several, the
     * validation error as reject reason for a bad file, otherwise the upload.
     * Returns what was done and the toasts shown.
     */
    method HandleDrop(files: seq<UploadFile>, uploadResult: Option<string>) returns (outcome: DropOutcome, toasts: seq<string>)
      modifies this
      ensures !isDragging
      ensures |files| == 0 ==> outcome == NoFiles
      ensures |files| > 1 ==> outcome == TooManyFiles
      ensures |files| == 1 && ValidateFile(files[0]).Some? ==>
        outcome == Rejected(ValidateFile(files[0]).value) && dragRejectReason == ValidateFile(files[0])
      ensures |files| == 1 && ValidateFile(files[0]).None? ==> outcome == Uploaded
      ensures outcome == NoFiles || outcome.Rejected? ==> toasts == []
      ensures outcome == TooManyFiles ==> toasts == [TooManyFilesMessage]
      ensures outcome != Uploaded ==> logoUrl == old(logoUrl) && isUploading == old(isUploading) && previewUrl == old(previewUrl)
      ensures outcome.Rejected? <==> |files| == 1 && ValidateFile(files[0]).Some?
      ensures !outcome.Rejected? ==> dragRejectReason == old(dragRejectReason)
      ensures outcome == Uploaded ==> !isUploading && previewUrl.None? && |toasts| > 0
      ensures outcome == Uploaded ==> ((NotAdminMessage in toasts) <==> curUserRole == "MEMBER")
      ensures outcome == Uploaded && uploadResult.Some? ==> logoUrl == uploadResult && toasts[|toasts| - 1] == UploadedMessage
      ensures outcome == Uploaded && uploadResult.None? ==> logoUrl == old(logoUrl) && toasts[|toasts| - 1] == UploadFailedMessage
    {
      isDragging := false;
      toasts := [];
      if |files| == 0 {
        return NoFiles, toasts;
      }
      if |files| > 1 {
        return TooManyFiles, [TooManyFilesMessage];
      }
      var validation := ValidateFile(files[0]);
      if validation.Some? {
        dragRejectReason := validation;
        return Rejected(validation.value), toasts;
      }
      var posted;
      toasts, posted := HandleFileUpload(files[0], uploadResult);
      outcome := Uploaded;
    }

    /** `onDragOver` on the drop zone. */
    method DragOver()
      modifies this`isDragging
      ensures isDragging
    {
      isDragging := true;
    }

    /** `onDragLeave` on the drop zone. */
    method DragLeave()
      modifies this`isDragging
      ensures !isDragging
    {
      isDragging := false;
    }

    /** The timer that clears the reject reason two seconds after a rejected drop. */
    method ClearRejectReason()
      modifies this`dragRejectReason
      ensures dragRejectReason.None?
    {
      dragRejectReason := None;
    }
  }
}
