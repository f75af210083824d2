/**
 * The provider portal: the badge variant of an application status, and the
 * "Post New Unit" modal's state: whether it is open, the chosen image and
 * its preview URL, and the upload error.
 *
 * The object URL made for a preview and the UUID of an upload are
 * parameters; the storage service's reply is a parameter.
 */
module ProviderDashboard {
  import opened Wrappers
  import opened Text
  import Upload
  import Auth

  datatype BadgeVariant = Success | Danger | Warning | Neutral

  /** The if-chain choosing a badge colour for an application status. */
  function StatusVariant(status: string): (v: BadgeVariant)
    ensures v == BadgeVariant.Success <==> status == "Approved"
    ensures v == Danger <==> status == "Rejected"
    ensures v == Warning <==> status == "Waitlist"
    ensures v == Neutral <==> status != "Approved" && status != "Rejected" && status != "Waitlist"
  {
    if status == "Approved" then BadgeVariant.Success
    else if status == "Rejected" then Danger
    else if status == "Waitlist" then Warning
    else Neutral
  }

  /** The sample table's statuses: "Pending" and "Reviewing" have no colour of their own. */
  lemma SampleStatusVariants()
    ensures StatusVariant("Pending") == Neutral && StatusVariant("Reviewing") == Neutral
    ensures StatusVariant("Waitlist") == Warning && StatusVariant("Approved") == BadgeVariant.Success
    ensures StatusVariant("Rejected") == Danger
    ensures StatusVariant("approved") == Neutral
  {
  }

  /** The modal's four pieces of state. */
  datatype PostUnitView = PostUnitView(
    showNewUnitModal: bool,
    unitImage: Option<Upload.File>,
    unitImagePreview: Option<string>,
    uploadError: Option<string>)

  function InitialPostUnit(): (v: PostUnitView)
    ensures !v.showNewUnitModal && v.unitImage.None? && v.unitImagePreview.None? && v.uploadError.None?
  {
    PostUnitView(false, None, None, None)
  }

  /** The message shown when the thrown value is not an `Error`. */
  const DefaultUploadError: string := "Image upload failed"

  /** "Post New Unit" opens the modal; "Cancel" and the modal's own close button close it. */
  function SetModal(v: PostUnitView, open: bool): (w: PostUnitView)
    ensures w.showNewUnitModal == open
    ensures w.unitImage == v.unitImage && w.unitImagePreview == v.unitImagePreview && w.uploadError == v.uploadError
  {
    v.(showNewUnitModal := open)
  }

  /** `handleImageChange`: a chosen file sets image and preview, a cleared input clears both; the error is cleared. */
  function ImageChanged(v: PostUnitView, file: Option<Upload.File>, objectUrl: string): (w: PostUnitView)
    ensures w.uploadError.None? && w.showNewUnitModal == v.showNewUnitModal
    ensures w.unitImage == file
    ensures w.unitImagePreview.Some? <==> file.Some?
    ensures file.Some? ==> w.unitImagePreview == Some(objectUrl)
  {
    if file.Some? then v.(uploadError := None, unitImage := file, unitImagePreview := Some(objectUrl))
    else v.(uploadError := None, unitImage := None, unitImagePreview := None)
  }

  /** `user?.id ?? 'provider'` */
  function ProviderId(user: Option<Auth.User>): (id: string)
    ensures user.Some? ==> id == user.value.id
    ensures user.None? ==> id == "provider"
  {
    if user.Some? then user.value.id else "provider"
  }

  /** The new state after `handlePostUnitSubmit`, and the upload it attempted, if any. */
  datatype Submitted = Submitted(view: PostUnitView, upload: Option<Upload.UploadAttempt>)

  /** `handlePostUnitSubmit` for one storage reply. */
  function Submit(v: PostUnitView, user: Option<Auth.User>, uuid: string, reply: Upload.StorageReply): (s: Submitted)
    ensures s.upload.Some? <==> v.unitImage.Some?
    ensures s.upload.Some? ==> s.upload.value == Upload.UploadHousingImage(v.unitImage.value, ProviderId(user), uuid, reply)
    ensures v.unitImage.Some? && reply.StorageFailed? ==>
      s.view == v.(uploadError := Some(reply.message.GetOr(DefaultUploadError)))
    ensures v.unitImage.None? || reply.Stored? ==> s.view == PostUnitView(false, None, None, None)
  {
    var cleared := v.(uploadError := None);
    if v.unitImage.Some? then
      var attempt := Upload.UploadHousingImage(v.unitImage.value, ProviderId(user), uuid, reply);
      if attempt.result.Failure? then
        Submitted(cleared.(uploadError := Some(reply.message.GetOr(DefaultUploadError))), Some(attempt))
      else
        Submitted(PostUnitView(false, None, None, None), Some(attempt))
    else
      Submitted(PostUnitView(false, None, None, None), None)
  }

  /**
   * An upload the handler is awaiting: the image and provider id it
   * captured when "Next Step" was clicked, and the UUID of its path.
   */
  datatype InFlight = InFlight(image: Upload.File, providerId: string, uuid: string)

  /** The state right after the click, and the upload left awaiting, if any. */
  datatype Started = Started(view: PostUnitView, inFlight: Option<InFlight>)

  /**
   * `handlePostUnitSubmit` up to its `await`. With an image, the error is
   * cleared and the upload is left in flight. Without one, nothing is
   * awaited, so the modal closes and clears at once.
   */
  function SubmitStart(v: PostUnitView, user: Option<Auth.User>, uuid: string): (s: Started)
    ensures s.inFlight.Some? <==> v.unitImage.Some?
    ensures s.inFlight.Some? ==> s.inFlight.value == InFlight(v.unitImage.value, ProviderId(user), uuid)
    ensures v.unitImage.Some? ==> s.view == v.(uploadError := None)
    ensures v.unitImage.None? ==> s.view == PostUnitView(false, None, None, None)
  {
    if v.unitImage.Some? then Started(v.(uploadError := None), Some(InFlight(v.unitImage.value, ProviderId(user), uuid)))
    else Started(PostUnitView(false, None, None, None), None)
  }

  /**
   * The rest of `handlePostUnitSubmit`, once the awaited upload settles.
   * Its setters write fixed values, so they overwrite whatever state other
   * events left in the meantime. A success does not touch the error: only
   * the start clears it.
   */
  function SubmitSettled(v: PostUnitView, f: InFlight, reply: Upload.StorageReply): (s: Submitted)
    ensures s.upload.Some? && s.upload.value == Upload.UploadHousingImage(f.image, f.providerId, f.uuid, reply)
    ensures reply.StorageFailed? ==> s.view == v.(uploadError := Some(reply.message.GetOr(DefaultUploadError)))
    ensures reply.Stored? ==> !s.view.showNewUnitModal && s.view.unitImage.None? && s.view.unitImagePreview.None?
    ensures reply.Stored? ==> s.view.uploadError == v.uploadError
  {
    var attempt := Upload.UploadHousingImage(f.image, f.providerId, f.uuid, reply);
    if reply.StorageFailed? then Submitted(v.(uploadError := Some(reply.message.GetOr(DefaultUploadError))), Some(attempt))
    else Submitted(v.(showNewUnitModal := false, unitImage := None, unitImagePreview := None), Some(attempt))
  }

  /** A submit with no other event before its upload settles is the start followed by the settling. */
  lemma SubmitIsStartThenSettled(v: PostUnitView, user: Option<Auth.User>, uuid: string, reply: Upload.StorageReply)
    ensures var s := SubmitStart(v, user, uuid);
      Submit(v, user, uuid, reply) ==
        if s.inFlight.Some? then SubmitSettled(s.view, s.inFlight.value, reply) else Submitted(s.view, None)
  {
  }

  /**
   * Nothing stops a second "Next Step" while the first upload is awaited.
   * Both clicks capture the same image, so two uploads start. If the first
   * succeeds and the second fails, the modal ends closed and cleared but
   * holding the second error, which shows when it is next opened. The
   * error also survives when the failure settles first, since a success
   * leaves the error alone. Two sequential submits would end with no error.
   */
  lemma OverlappingSubmitsLeaveStaleError(v: PostUnitView, user: Option<Auth.User>, uuid1: string, uuid2: string,
                                          url: string, message: string)
    requires v.unitImage.Some?
    ensures var s1 := SubmitStart(v, user, uuid1);
      var s2 := SubmitStart(s1.view, user, uuid2);
      s2.inFlight.Some? && s1.inFlight.Some? && s2.inFlight.value.image == s1.inFlight.value.image &&
      var a := SubmitSettled(s2.view, s1.inFlight.value, Upload.Stored(url));
      SubmitSettled(a.view, s2.inFlight.value, Upload.StorageFailed(Some(message))).view ==
        PostUnitView(false, None, None, Some(message))
    ensures var s1 := SubmitStart(v, user, uuid1);
      var s2 := SubmitStart(s1.view, user, uuid2);
      s2.inFlight.Some? && s1.inFlight.Some? &&
      var a := SubmitSettled(s2.view, s2.inFlight.value, Upload.StorageFailed(Some(message)));
      SubmitSettled(a.view, s1.inFlight.value, Upload.Stored(url)).view ==
        PostUnitView(false, None, None, Some(message))
    ensures var once := Submit(v, user, uuid1, Upload.Stored(url)).view;
      Submit(once, user, uuid2, Upload.StorageFailed(Some(message))).view == PostUnitView(false, None, None, None)
  {
    var s1 := SubmitStart(v, user, uuid1);
    var s2 := SubmitStart(s1.view, user, uuid2);
    assert s2.inFlight.Some?;
    var a := SubmitSettled(s2.view, s1.inFlight.value, Upload.Stored(url));
    assert a.view == PostUnitView(false, None, None, None);
  }

  /** An image chosen while an upload is awaited is cleared when that upload succeeds. */
  lemma ImageChosenDuringUploadIsCleared(v: PostUnitView, user: Option<Auth.User>, uuid: string,
                                         file: Upload.File, objectUrl: string, url: string)
    requires v.unitImage.Some?
    ensures var s := SubmitStart(v, user, uuid);
      var chosen := ImageChanged(s.view, Some(file), objectUrl);
      chosen.unitImage == Some(file) &&
      SubmitSettled(chosen, s.inFlight.value, Upload.Stored(url)).view.unitImage.None? &&
      SubmitSettled(chosen, s.inFlight.value, Upload.Stored(url)).view.unitImagePreview.None?
  {
  }

  /** Without a signed-in user the image goes under the "provider/" prefix. */
  lemma UploadPathPrefix(v: PostUnitView, user: Option<Auth.User>, uuid: string, reply: Upload.StorageReply)
    requires v.unitImage.Some?
    ensures StartsWith(Submit(v, user, uuid, reply).upload.value.path, ProviderId(user) + "/")
    ensures user.None? ==> StartsWith(Submit(v, user, uuid, reply).upload.value.path, "provider/")
  {
    assert Submit(v, user, uuid, reply).upload.value.path == Upload.ImagePath(ProviderId(user), uuid, v.unitImage.value.name);
  }

  /**
   * A failed upload leaves the modal open with its image, and retrying
   * against the same failure leaves exactly the same state behind.
   */
  lemma FailedUploadKeepsForm(v: PostUnitView, user: Option<Auth.User>, uuid: string, message: Option<string>)
    requires v.unitImage.Some?
    ensures Submit(v, user, uuid, Upload.StorageFailed(message)).view.showNewUnitModal == v.showNewUnitModal
    ensures Submit(v, user, uuid, Upload.StorageFailed(message)).view.unitImage == v.unitImage
    ensures Submit(v, user, uuid, Upload.StorageFailed(message)).view.uploadError.Some?
    ensures var once := Submit(v, user, uuid, Upload.StorageFailed(message)).view;
      Submit(once, user, uuid, Upload.StorageFailed(message)).view == once
  {
  }

  /** Closing the modal without submitting keeps the chosen image and preview for the next opening. */
  lemma CancelKeepsImage(v: PostUnitView)
    ensures SetModal(SetModal(v, false), true).unitImage == v.unitImage
    ensures SetModal(SetModal(v, false), true).unitImagePreview == v.unitImagePreview
  {
  }

  /** The image and its preview are set and cleared together by every handler. */
  predicate PreviewMatchesImage(v: PostUnitView) {
    v.unitImage.Some? <==> v.unitImagePreview.Some?
  }

  lemma PreviewMatchesImagePreserved(v: PostUnitView, open: bool, file: Option<Upload.File>, objectUrl: string,
                                     user: Option<Auth.User>, uuid: string, reply: Upload.StorageReply)
    requires PreviewMatchesImage(v)
    ensures PreviewMatchesImage(InitialPostUnit())
    ensures PreviewMatchesImage(SetModal(v, open))
    ensures PreviewMatchesImage(ImageChanged(v, file, objectUrl))
    ensures PreviewMatchesImage(Submit(v, user, uuid, reply).view)
    ensures PreviewMatchesImage(SubmitStart(v, user, uuid).view)
    ensures forall f: InFlight :: PreviewMatchesImage(SubmitSettled(v, f, reply).view)
  {
  }

  /** The page component's state for the "Post New Unit" flow. */
  class Dashboard {
    var showNewUnitModal: bool
    var unitImage: Option<Upload.File>
    var unitImagePreview: Option<string>
    var uploadError: Option<string>

    function View(): PostUnitView
      reads this
    {
      PostUnitView(showNewUnitModal, unitImage, unitImagePreview, uploadError)
    }

    constructor()
      ensures View() == InitialPostUnit()
    {
      showNewUnitModal := false;
      unitImage := None;
      unitImagePreview := None;
      uploadError := None;
    }

    method OpenNewUnitModal()
      modifies this
      ensures View() == SetModal(old(View()), true)
    {
      showNewUnitModal := true;
    }

    method CloseNewUnitModal()
      modifies this
      ensures View() == SetModal(old(View()), false)
    {
      showNewUnitModal := false;
    }

    /** The file input's change handler; `objectUrl` is what `URL.createObjectURL` returns. */
    method HandleImageChange(file: Option<Upload.File>, objectUrl: string)
      modifies this
      ensures View() == ImageChanged(old(View()), file, objectUrl)
    {
      uploadError := None;
      if file.Some? {
        unitImage := file;
        unitImagePreview := Some(objectUrl);
      } else {
        unitImage := None;
        unitImagePreview := None;
      }
    }

    /** "Next Step" up to its `await`: returns the upload left in flight, if any. */
    method BeginPostUnitSubmit(user: Option<Auth.User>, uuid: string) returns (inFlight: Option<InFlight>)
      modifies this
      ensures Started(View(), inFlight) == SubmitStart(old(View()), user, uuid)
    {
      if unitImage.Some? {
        uploadError := None;
        inFlight := Some(InFlight(unitImage.value, ProviderId(user), uuid));
      } else {
        uploadError := None;
        showNewUnitModal := false;
        unitImage := None;
        unitImagePreview := None;
        inFlight := None;
      }
    }

    /** The awaited upload settles: show its error, or close and clear the modal. */
    method PostUnitUploadSettled(f: InFlight, reply: Upload.StorageReply) returns (upload: Upload.UploadAttempt)
      modifies this
      ensures View() == SubmitSettled(old(View()), f, reply).view
      ensures upload == SubmitSettled(old(View()), f, reply).upload.value
    {
      if reply.StorageFailed? {
        uploadError := Some(reply.message.GetOr(DefaultUploadError));
      } else {
        showNewUnitModal := false;
        unitImage := None;
        unitImagePreview := None;
      }
      upload := Upload.UploadHousingImage(f.image, f.providerId, f.uuid, reply);
    }

    /** "Next Step" with no other event before the upload settles. */
    method HandlePostUnitSubmit(user: Option<Auth.User>, uuid: string, reply: Upload.StorageReply)
      returns (upload: Option<Upload.UploadAttempt>)
      modifies this
      ensures Submitted(View(), upload) == Submit(old(View()), user, uuid, reply)
    {
      SubmitIsStartThenSettled(View(), user, uuid, reply);
      var inFlight := BeginPostUnitSubmit(user, uuid);
      if inFlight.Some? {
        var attempt := PostUnitUploadSettled(inFlight.value, reply);
        upload := Some(attempt);
      } else {
        upload := None;
      }
    }
  }
}
