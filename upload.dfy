/**
 * The upload screen: the guards before an upload, what a finished upload
 * leaves, the cancel confirmation and the upload button's enable rule.
 * The selected image is represented by its URI.
 */
module Upload {

  import opened Common
  import opened Js
  import opened Http

  /** `isPublic.toString()` */
  function BoolText(b: bool): string
  {
    if b then "true" else "false"
  }

  /** The multipart form the upload sends. */
  datatype UploadForm = UploadForm(image: string, description: string, keywords: string, isPublic: string, authorization: string)

  datatype Alert = Alert(title: string, message: string)

  const NoImage := Alert("Error", "Please select an image first")
  const NoDescription := Alert("Error", "Please add a description")
  const NotLoggedIn := Alert("Authentication Error", "You need to be logged in to upload photos")
  const Uploaded := Alert("Success", "Photo uploaded successfully!")

  /** The checks `handleUpload` makes before it starts: an image, and a description that is not blank. */
  predicate MayUpload(image: Option<string>, description: string)
  {
    image.Some? && Trim(description) != ""
  }

  /** `!image || !description || isLoading`: the button tests the description untrimmed. */
  predicate ButtonDisabled(image: Option<string>, description: string, isLoading: bool)
  {
    image.None? || description == "" || isLoading
  }

  /** Whenever the handler would upload and nothing is in flight, the button is enabled. */
  lemma GuardImpliesEnabled(image: Option<string>, description: string)
    requires MayUpload(image, description)
    ensures !ButtonDisabled(image, description, false)
  {
    assert Trim(description) != "";
  }

  /** The converse fails: a description of spaces enables the button, and the handler then refuses. */
  lemma BlankDescriptionEnablesButton(uri: string)
    ensures !ButtonDisabled(Some(uri), " ", false) && !MayUpload(Some(uri), " ")
  {
    TrimEmptyIffAllSpace(" ");
  }

  /** `image || description || keywords` */
  predicate HasInput(image: Option<string>, description: string, keywords: string)
  {
    image.Some? || description != "" || keywords != ""
  }

  class UploadSession {
    const storage: Storage
    var image: Option<string>
    var description: string
    var keywords: string
    var isLoading: bool
    var uploadProgress: int
    var isPublic: bool
    /** The success alert is on screen, waiting for its OK button. */
    var successShown: bool

    constructor (stored: Storage)
      ensures storage == stored && image.None? && description == "" && keywords == ""
      ensures !isLoading && uploadProgress == 0 && isPublic && !successShown
    {
      storage := stored;
      image := None;
      description := "";
      keywords := "";
      isLoading := false;
      uploadProgress := 0;
      isPublic := true;
      successShown := false;
    }

    method PickImage(uri: string)
      modifies this`image
      ensures image == Some(uri)
    {
      image := Some(uri);
    }

    method EditDescription(text: string)
      modifies this`description
      ensures description == text
    {
      description := text;
    }

    method EditKeywords(text: string)
      modifies this`keywords
      ensures keywords == text
    {
      keywords := text;
    }

    method SetPublic(b: bool)
      modifies this`isPublic
      ensures isPublic == b
    {
      isPublic := b;
    }

    /**
     * `handleUpload`, with the server's reply taken as a parameter. Returns
     * the form sent, if any, and the alert shown; a success alert is `Uploaded`.
     */
    method Upload(reply: Reply) returns (form: Option<UploadForm>, alert: Alert)
      modifies this`isLoading, this`uploadProgress, this`successShown
      ensures form.Some? <==> MayUpload(image, description) && Given(GetItem(storage, "accessToken"))
      ensures form.Some? ==> form.value == UploadForm(image.value, description, keywords, BoolText(isPublic), "Bearer " + storage["accessToken"])
      ensures image.None? ==> alert == NoImage
      ensures image.Some? && Trim(description) == "" ==> alert == NoDescription
      ensures MayUpload(image, description) && !Given(GetItem(storage, "accessToken")) ==> alert == NotLoggedIn
      ensures form.Some? ==> (alert == Uploaded <==> Ok(reply))
      ensures form.Some? && !Ok(reply) ==> alert.title == "Upload Failed"
      ensures successShown == (old(successShown) || (form.Some? && Ok(reply)))
      ensures !MayUpload(image, description) ==> isLoading == old(isLoading) && uploadProgress == old(uploadProgress)
      ensures MayUpload(image, description) ==> !isLoading && uploadProgress == 0
    {
      if image.None? {
        return None, NoImage;
      }
      if Trim(description) == "" {
        return None, NoDescription;
      }
      isLoading := true;
      uploadProgress := 0;
      var token := GetItem(storage, "accessToken");
      if !Given(token) {
        form := None;
        alert := NotLoggedIn;
      } else {
        form := Some(UploadForm(image.value, description, keywords, BoolText(isPublic), "Bearer " + token.value));
        if Ok(reply) {
          alert := Uploaded;
          successShown := true;
        } else {
          alert := Alert("Upload Failed", if reply.Response? then "Request failed with status code " + IntToDecimal(reply.status) else reply.message);
        }
      }
      isLoading := false;
      uploadProgress := 0;
    }

    /** The OK button of the success alert: the form is cleared, except the visibility switch. */
    method ConfirmSuccess()
      requires successShown
      modifies this`image, this`description, this`keywords, this`uploadProgress, this`successShown
      ensures image.None? && description == "" && keywords == "" && uploadProgress == 0 && !successShown
    {
      image := None;
      description := "";
      keywords := "";
      uploadProgress := 0;
      successShown := false;
    }

    /** `handleCancel`: whether a confirmation is asked for before leaving. */
    method Cancel() returns (asksConfirmation: bool)
      ensures asksConfirmation <==> HasInput(image, description, keywords)
    {
      asksConfirmation := image.Some? || description != "" || keywords != "";
    }

    /** The destructive button of the cancel confirmation: everything is reset, visibility to public. */
    method ConfirmCancel()
      modifies this`image, this`description, this`keywords, this`uploadProgress, this`isPublic
      ensures image.None? && description == "" && keywords == "" && uploadProgress == 0 && isPublic
      ensures !HasInput(image, description, keywords)
    {
      image := None;
      description := "";
      keywords := "";
      uploadProgress := 0;
      isPublic := true;
    }
  }
}
