/** The admin media screen: choosing a file fills in the media type, the
    upload form is validated, the file goes to storage under a path built
    from the clock and the file's extension, the row is inserted, and a row's
    published flag can be flipped. Storage and database answers are
    parameters; what the screen sends is kept in logs. */
module MediaManagement {
  import opened Js
  import opened Ui
  import opened Text
  import opened Schema

  // -------------------------------------------------------------------
  // Type detection and paths
  // -------------------------------------------------------------------

  /** `handleFileSelect`'s detection from the file's MIME type. The four
      tests exclude one another, so their order does not decide anything:
      each type is chosen exactly when its own test holds. */
  function DetectMediaType(mime: string): (r: MediaType)
    ensures r == VideoMedia <==> StartsWith(mime, "video/")
    ensures r == AudioMedia <==> StartsWith(mime, "audio/")
    ensures r == PdfMedia <==> mime == "application/pdf"
    ensures r == TextMedia <==> !StartsWith(mime, "video/") && !StartsWith(mime, "audio/") && mime != "application/pdf"
  {
    if StartsWith(mime, "video/") then
      assert mime[0] == "video/"[0];
      VideoMedia
    else if StartsWith(mime, "audio/") then
      assert mime[1] == "audio/"[1];
      AudioMedia
    else if mime == "application/pdf" then PdfMedia
    else TextMedia
  }

  /** A detected audio or video file's MIME type starts with the type's
      database name and a slash. */
  lemma DetectedNamePrefixes(mime: string)
    requires DetectMediaType(mime) in {VideoMedia, AudioMedia}
    ensures StartsWith(mime, MediaTypeName(DetectMediaType(mime)) + "/")
  {
  }

  /** `media/${Date.now()}.${fileExt}`. */
  function StoragePath(now: nat, fileName: string): (r: string)
    ensures StartsWith(r, "media/")
  {
    "media/" + NatToString(now) + "." + FileExtension(fileName)
  }

  /** The stored object keeps the file's extension: the text after the
      path's last dot is the extension of the chosen file. */
  lemma StoragePathKeepsExtension(now: nat, fileName: string)
    ensures AfterLast(StoragePath(now, fileName), '.') == FileExtension(fileName)
  {
    var ext := FileExtension(fileName);
    assert StoragePath(now, fileName) == ("media/" + NatToString(now)) + ['.'] + ext;
    AfterLastOfJoin("media/" + NatToString(now), '.', ext);
  }

  /** Uploads at different times go to different paths. */
  lemma StoragePathsDiffer(t1: nat, t2: nat, fileName: string)
    requires t1 != t2
    ensures StoragePath(t1, fileName) != StoragePath(t2, fileName)
  {
    var a, b := NatToString(t1), NatToString(t2);
    var ext := FileExtension(fileName);
    if StoragePath(t1, fileName) == StoragePath(t2, fileName) {
      assert |a| == |b|;
      assert a == StoragePath(t1, fileName)[6..6 + |a|];
      assert b == StoragePath(t2, fileName)[6..6 + |b|];
      NatToStringInjective(t1, t2);
    }
  }

  // -------------------------------------------------------------------
  // The upload form
  // -------------------------------------------------------------------

  /** `newMedia`. */
  datatype MediaForm = MediaForm(
    title: string,
    description: string,
    category: string,
    mediaType: MediaType,
    isDownloadable: bool,
    isPublished: bool)

  const EmptyForm := MediaForm("", "", "", VideoMedia, false, false)

  /** The chosen file: its name and MIME type. */
  datatype FileInfo = FileInfo(name: string, mimeType: string)

  /** The writes to `media_content`. */
  datatype MediaWrite =
    | InsertMedia(form: MediaForm, fileUrl: Option<string>, uploadedBy: Option<string>)
    | SetPublished(id: string, isPublished: bool)

  /** `!item.is_published`, a null flag reading as false. */
  function ToggledFlag(current: Option<bool>): (r: bool)
    ensures current != Some(true) <==> r
  {
    !(current.Some? && current.value)
  }

  /** The row once the toggle's write has landed. */
  function WithWrite(row: MediaRow, w: MediaWrite): (r: MediaRow)
    requires w.SetPublished? && w.id == row.id
    ensures r.isPublished == Some(w.isPublished)
    ensures r == row.(isPublished := r.isPublished)
  {
    row.(isPublished := Some(w.isPublished))
  }

  /** Toggling a row twice brings a set flag back; a null flag becomes false. */
  lemma ToggleTwice(row: MediaRow)
    ensures var once := WithWrite(row, SetPublished(row.id, ToggledFlag(row.isPublished)));
      WithWrite(once, SetPublished(row.id, ToggledFlag(once.isPublished))).isPublished
      == Some(row.isPublished == Some(true))
  {
  }

  class MediaManager {
    var form: MediaForm
    var selectedFile: Option<FileInfo>
    var uploading: bool
    var showUploadDialog: bool
    /** The storage paths uploaded to, in order. */
    var uploads: seq<string>
    var writes: seq<MediaWrite>
    var toasts: seq<Toast>
    /** How many times the media list was fetched again. */
    var refetches: nat

    constructor ()
      ensures form == EmptyForm && selectedFile.None? && !uploading && !showUploadDialog
      ensures uploads == [] && writes == [] && toasts == [] && refetches == 0
    {
      form, selectedFile, uploading, showUploadDialog := EmptyForm, None, false, false;
      uploads, writes, toasts, refetches := [], [], [], 0;
    }

    /** `handleFileSelect`: with a file chosen, it becomes the selected file
        and only the form's media type changes. */
    method HandleFileSelect(file: Option<FileInfo>)
      modifies this
      ensures file.Some? ==> selectedFile == file && form == old(form).(mediaType := DetectMediaType(file.value.mimeType))
      ensures file.None? ==> selectedFile == old(selectedFile) && form == old(form)
      ensures uploading == old(uploading) && showUploadDialog == old(showUploadDialog)
      ensures uploads == old(uploads) && writes == old(writes) && toasts == old(toasts) && refetches == old(refetches)
    {
      if file.Some? {
        selectedFile := file;
        form := form.(mediaType := DetectMediaType(file.value.mimeType));
      }
    }

    /** `uploadMedia` at time `now`. `upload` is the storage answer,
        `publicUrl` the public URL of the stored file and `insert` the
        database answer; `userId` is the signed-in user, if any. */
    method UploadMedia(now: nat, upload: WriteOutcome, publicUrl: string, insert: WriteOutcome, userId: Option<string>)
      modifies this
      // A blank title stops everything before the upload.
      ensures IsBlank(old(form.title)) ==>
        toasts == old(toasts) + [Toast("Error", "Title is required", true)]
        && uploads == old(uploads) && writes == old(writes) && uploading == old(uploading)
        && form == old(form) && selectedFile == old(selectedFile)
        && showUploadDialog == old(showUploadDialog) && refetches == old(refetches)
      // Otherwise `uploading` is false again whatever happens.
      ensures !IsBlank(old(form.title)) ==> !uploading
      // The file, if any, is uploaded under its storage path.
      ensures !IsBlank(old(form.title)) ==>
        uploads == old(uploads) + (if old(selectedFile).Some? then [StoragePath(now, old(selectedFile).value.name)] else [])
      // A failed upload stops before the insert.
      ensures !IsBlank(old(form.title)) && old(selectedFile).Some? && upload.WriteFailed? ==>
        toasts == old(toasts) + [Toast("Error", "Failed to upload file", true)]
        && writes == old(writes) && form == old(form) && selectedFile == old(selectedFile)
        && showUploadDialog == old(showUploadDialog) && refetches == old(refetches)
      // Otherwise the form is inserted with the file's URL, or null without a file.
      ensures !IsBlank(old(form.title)) && (old(selectedFile).None? || upload.Written?) ==>
        writes == old(writes) + [InsertMedia(old(form), if old(selectedFile).Some? then Some(publicUrl) else None, userId)]
      ensures !IsBlank(old(form.title)) && (old(selectedFile).None? || upload.Written?) && insert.WriteFailed? ==>
        toasts == old(toasts) + [Toast("Error", "Failed to save media", true)]
        && form == old(form) && selectedFile == old(selectedFile)
        && showUploadDialog == old(showUploadDialog) && refetches == old(refetches)
      // A saved row closes the dialog, resets the form and refetches.
      ensures !IsBlank(old(form.title)) && (old(selectedFile).None? || upload.Written?) && insert.Written? ==>
        toasts == old(toasts) + [Toast("Success", "Media uploaded successfully", false)]
        && form == EmptyForm && selectedFile.None? && !showUploadDialog && refetches == old(refetches) + 1
    {
      if IsBlank(form.title) {
        toasts := toasts + [Toast("Error", "Title is required", true)];
        return;
      }
      uploading := true;
      var fileUrl: Option<string> := None;
      if selectedFile.Some? {
        var path := StoragePath(now, selectedFile.value.name);
        uploads := uploads + [path];
        if upload.WriteFailed? {
          toasts := toasts + [Toast("Error", "Failed to upload file", true)];
          uploading := false;
          return;
        }
        fileUrl := Some(publicUrl);
      }
      writes := writes + [InsertMedia(form, fileUrl, userId)];
      if insert.WriteFailed? {
        toasts := toasts + [Toast("Error", "Failed to save media", true)];
      } else {
        toasts := toasts + [Toast("Success", "Media uploaded successfully", false)];
        showUploadDialog := false;
        form := EmptyForm;
        selectedFile := None;
        refetches := refetches + 1;
      }
      uploading := false;
    }

    /** `togglePublished(item)`: writes the negation of the row's flag; the
        list is fetched again only when the write succeeds. */
    method TogglePublished(item: MediaRow, result: WriteOutcome)
      modifies this
      ensures writes == old(writes) + [SetPublished(item.id, ToggledFlag(item.isPublished))]
      ensures result.Written? ==> refetches == old(refetches) + 1 && toasts == old(toasts)
      ensures result.WriteFailed? ==> refetches == old(refetches) && toasts == old(toasts) + [Toast("Error", "Failed to update", true)]
      ensures form == old(form) && selectedFile == old(selectedFile) && uploading == old(uploading)
      ensures showUploadDialog == old(showUploadDialog) && uploads == old(uploads)
    {
      writes := writes + [SetPublished(item.id, ToggledFlag(item.isPublished))];
      if result.Written? {
        refetches := refetches + 1;
      } else {
        toasts := toasts + [Toast("Error", "Failed to update", true)];
      }
    }
  }
}
