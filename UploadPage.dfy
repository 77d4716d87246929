/**
 * The upload page (frontend/src/pages/UploadPage.jsx): picking an image is
 * gated on being logged in, only image files are taken, and extraction runs
 * only with a selected file, raising the shared `processing` flag meanwhile.
 *
 * The file picker, `URL.createObjectURL`, the OCR request and navigation are
 * browser I/O: the picked file, the object URL and the request's outcome are
 * parameters.
 */
module UploadPage {
  import opened Wrappers
  import opened Session

  /** The parts of a browser `File` the page looks at. */
  datatype FileInfo = FileInfo(name: string, mimeType: string)

  /** `sub` occurs in `s` starting at index `i`. */
  ghost predicate OccursAt(s: string, sub: string, i: int)
  {
    0 <= i <= |s| - |sub| && s[i..i + |sub|] == sub
  }

  /** `sub` occurs somewhere in `s`. */
  ghost predicate Contains(s: string, sub: string)
  {
    exists i :: OccursAt(s, sub, i)
  }

  /** A left-to-right search for `sub`, as `String.prototype.match` performs it. */
  function SearchFrom(s: string, sub: string, from: nat): (found: bool)
    requires from <= |s|
    decreases |s| - from
    ensures found <==> exists i :: from <= i && OccursAt(s, sub, i)
  {
    if from + |sub| > |s| then false
    else if s[from..from + |sub|] == sub then assert OccursAt(s, sub, from); true
    else
      assert forall i :: from <= i && OccursAt(s, sub, i) ==> i == from || from + 1 <= i;
      SearchFrom(s, sub, from + 1)
  }

  predicate EndsWith(s: string, suffix: string)
  {
    |suffix| <= |s| && s[|s| - |suffix|..] == suffix
  }

  /**
   * Line 25: `file.type.match('image.*')` (the string becomes the unanchored
   * pattern `image.*`, which matches wherever "image" occurs) or
   * `file.name.match(/\.(jpg|jpeg|png|gif)$/)`, case-sensitive.
   */
  predicate Accepts(f: FileInfo): (ok: bool)
    ensures ok <==>
      || Contains(f.mimeType, "image")
      || EndsWith(f.name, ".jpg") || EndsWith(f.name, ".jpeg")
      || EndsWith(f.name, ".png") || EndsWith(f.name, ".gif")
  {
    || SearchFrom(f.mimeType, "image", 0)
    || EndsWith(f.name, ".jpg") || EndsWith(f.name, ".jpeg")
    || EndsWith(f.name, ".png") || EndsWith(f.name, ".gif")
  }

  /** An upper-case extension alone does not get a file in. */
  lemma UpperCaseExtensionRejected()
    ensures !Accepts(FileInfo("NOTES.JPG", ""))
  {
  }

  /**
   * `useProcessing()` (frontend/src/context/ProcessingContext.jsx, lines
   * 13-22): the flag and the text shared with the editor page, kept here
   * beside the page that sets them.
   */
  class Processing {
    var processing: bool
    var extractedText: string

    constructor ()
      ensures !processing && extractedText == ""
    {
      processing := false;
      extractedText := "";
    }
  }

  class UploadPage {
    var selectedFile: Option<FileInfo>
    var preview: Option<string>
    var loginDialogOpen: bool
    const session: UserSession
    const shared: Processing

    constructor (session: UserSession, shared: Processing)
      ensures this.session == session && this.shared == shared
      ensures selectedFile == None && preview == None && !loginDialogOpen
    {
      this.session := session;
      this.shared := shared;
      selectedFile := None;
      preview := None;
      loginDialogOpen := false;
    }

    /**
     * `handleFileChange` (lines 19-29) with `files[0]` and the object URL the
     * browser would create for it.
     */
    method HandleFileChange(file: Option<FileInfo>, objectUrl: string)
      modifies this`selectedFile, this`preview, this`loginDialogOpen
      ensures !session.IsAuthenticated() ==>
        loginDialogOpen && selectedFile == old(selectedFile) && preview == old(preview)
      ensures session.IsAuthenticated() ==> loginDialogOpen == old(loginDialogOpen)
      ensures session.IsAuthenticated() && file.Some? && Accepts(file.value) ==>
        selectedFile == file && preview == Some(objectUrl)
      ensures session.IsAuthenticated() && !(file.Some? && Accepts(file.value)) ==>
        selectedFile == old(selectedFile) && preview == old(preview)
    {
      if !session.IsAuthenticated() {
        loginDialogOpen := true;
        return;
      }
      if file.Some? && Accepts(file.value) {
        selectedFile := file;
        preview := Some(objectUrl);
      }
    }

    /** `handleSelectImage` (lines 31-37): opens the picker when logged in, the login dialog otherwise. */
    method HandleSelectImage() returns (pickerOpened: bool)
      modifies this`loginDialogOpen
      ensures pickerOpened <==> session.IsAuthenticated()
      ensures loginDialogOpen == if pickerOpened then old(loginDialogOpen) else true
    {
      if !session.IsAuthenticated() {
        loginDialogOpen := true;
        return false;
      }
      pickerOpened := true;
    }

    /**
     * `handleExtract` up to the request (lines 39-42): nothing at all happens
     * without a selected file; otherwise `processing` is raised and the
     * request starts.
     */
    method StartExtract() returns (started: bool)
      modifies shared`processing
      ensures started <==> selectedFile.Some?
      ensures shared.processing == if started then true else old(shared.processing)
    {
      if selectedFile.None? {
        return false;
      }
      shared.processing := true;
      started := true;
    }

    /**
     * `handleExtract` once the request settles (lines 43-66): the extracted
     * text is published on success, and `processing` drops either way.
     */
    method FinishExtract(extracted: Option<string>)
      modifies shared`processing, shared`extractedText
      ensures !shared.processing
      ensures shared.extractedText == if extracted.Some? then extracted.value else old(shared.extractedText)
    {
      if extracted.Some? {
        shared.extractedText := extracted.value;
      }
      shared.processing := false;
    }

    /** `handleLoginClick` (lines 69-72): the dialog closes before navigating to the login page. */
    method HandleLoginClick()
      modifies this`loginDialogOpen
      ensures !loginDialogOpen
    {
      loginDialogOpen := false;
    }
  }
}
