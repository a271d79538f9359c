/**
 * The report form: its initial state when creating or editing a report,
 * the keypoint reset when the feeder changes, the photo-slot update and the
 * report it builds on submit.
 */
module InputForm {
  import opened Types
  import Constants

  /** `editData?.<field>` for a string field: absent when there is no edited report. */
  function Edited(editData: Option<ReportData>, field: ReportData -> string): Option<string> {
    if editData.Some? then Some(field(editData.value)) else None
  }

  /** `sessionData.ulp || editData?.ulp`, absent when neither is a non-empty string. */
  function CurrentUlp(session: LoginSession, editData: Option<ReportData>): (r: Option<string>)
    ensures r.Some? ==> r.value != ""
    ensures session.ulp != "" ==> r == Some(session.ulp)
    ensures session.ulp == "" ==> (r.Some? <==> editData.Some? && editData.value.ulp != "")
    ensures session.ulp == "" && r.Some? ==> r.value == editData.value.ulp
  {
    if session.ulp != "" then Some(session.ulp)
    else if editData.Some? && editData.value.ulp != "" then Some(editData.value.ulp)
    else None
  }

  /** `currentUlp ? masterData[currentUlp] : null`: a missing key reads as no data. */
  function UnitData(masterData: map<string, ULPData>, ulp: Option<string>): (r: Option<ULPData>)
    ensures r.Some? <==> ulp.Some? && ulp.value in masterData
    ensures r.Some? ==> r.value == masterData[ulp.value]
  {
    if ulp.Some? && ulp.value in masterData then Some(masterData[ulp.value]) else None
  }

  /**
   * `availableKeypoints`: the feeder's keypoint list in the unit's master
   * data; empty without unit data, without a feeder, or when the feeder has
   * no entry.
   */
  function AvailableKeypoints(unit: Option<ULPData>, penyulang: string): (r: seq<string>)
    ensures unit.None? || penyulang == "" || penyulang !in unit.value.keypoints ==> r == []
    ensures unit.Some? && penyulang != "" && penyulang in unit.value.keypoints ==>
      r == unit.value.keypoints[penyulang]
  {
    if unit.Some? && penyulang != "" && penyulang in unit.value.keypoints then
      unit.value.keypoints[penyulang]
    else []
  }

  /** With the built-in catalog every listed feeder of a unit offers at least one keypoint. */
  lemma CatalogFeedersOfferKeypoints(ulp: string, penyulang: string)
    requires ulp in Constants.DataUlp && penyulang in Constants.DataUlp[ulp].penyulang
    ensures AvailableKeypoints(UnitData(Constants.DataUlp, Some(ulp)), penyulang) != []
  {
    Constants.EveryFeederHasKeypoints();
    assert penyulang != "" by {
      var u :| u in AllUnits && u.Name() == ulp;
      Constants.CatalogEntries();
      Constants.FeedersHaveKeypoints(u);
      assert "" !in Constants.DefaultUnit(u).penyulang;
    }
  }

  /** The feeder the form starts with: the edited report's, or none. */
  function BaseFeeder(editData: Option<ReportData>): string {
    OrElse(Edited(editData, (d: ReportData) => d.penyulang), "")
  }

  /** The keypoint after the reset effect has run for feeder `penyulang`. */
  function KeypointAfterEffect(editData: Option<ReportData>, penyulang: string, keypoint: string): string {
    if editData.None? || penyulang != editData.value.penyulang then
      if penyulang != BaseFeeder(editData) then "" else keypoint
    else keypoint
  }

  /**
   * The keypoint is cleared exactly when the feeder differs from the edited
   * report's feeder (from none, for a new report); otherwise it is kept.
   */
  lemma KeypointResetIffFeederMoved(editData: Option<ReportData>, penyulang: string, keypoint: string)
    ensures penyulang != BaseFeeder(editData) ==> KeypointAfterEffect(editData, penyulang, keypoint) == ""
    ensures penyulang == BaseFeeder(editData) ==> KeypointAfterEffect(editData, penyulang, keypoint) == keypoint
  {
    if editData.Some? {
      assert BaseFeeder(editData) == editData.value.penyulang;
    }
  }

  /**
   * `newPhotos = [...photos]; newPhotos[index] = image`: slot `index` holds
   * the image, every other slot keeps its content, and writing past the end
   * leaves empty slots in between.
   */
  function WithSlot(photos: seq<Option<string>>, index: nat, image: string): (r: seq<Option<string>>)
    ensures |r| == if index < |photos| then |photos| else index + 1
    ensures r[index] == Some(image)
    ensures forall i :: 0 <= i < |r| && i != index ==> r[i] == if i < |photos| then photos[i] else None
  {
    if index < |photos| then photos[index := Some(image)]
    else photos + seq(index - |photos|, _ => None) + [Some(image)]
  }

  /** A slot of a six-slot row keeps the row at six slots. */
  lemma WithSlotKeepsSixSlots(photos: seq<Option<string>>, index: nat, image: string)
    requires |photos| == Constants.PhotoSlots && index < Constants.PhotoSlots
    ensures |WithSlot(photos, index, image)| == Constants.PhotoSlots
  {
  }

  /** Writing the same slot twice keeps only the second image. */
  lemma WithSlotLastWins(photos: seq<Option<string>>, index: nat, first: string, second: string)
    ensures WithSlot(WithSlot(photos, index, first), index, second) == WithSlot(photos, index, second)
  {
    var once := WithSlot(photos, index, first);
    var twice := WithSlot(once, index, second);
    var direct := WithSlot(photos, index, second);
    assert |twice| == |direct|;
    forall i | 0 <= i < |twice|
      ensures twice[i] == direct[i]
    {
    }
  }

  /** Writing two different slots gives the same row in either order. */
  lemma WithSlotCommutes(photos: seq<Option<string>>, i: nat, a: string, j: nat, b: string)
    requires i != j
    ensures WithSlot(WithSlot(photos, i, a), j, b) == WithSlot(WithSlot(photos, j, b), i, a)
  {
    var left := WithSlot(WithSlot(photos, i, a), j, b);
    var right := WithSlot(WithSlot(photos, j, b), i, a);
    assert |left| == |right|;
    forall k | 0 <= k < |left|
      ensures left[k] == right[k]
    {
    }
  }

  /** Which photo row a change is for. */
  datatype PhotoKind = Sebelum | Sesudah

  /** The editable fields of the form at the moment it is submitted. */
  datatype FormFields = FormFields(
    noPenugasan: string,
    penyulang: string,
    keypoint: string,
    titikStart: string,
    titikFinish: string,
    photos: Photos)

  /** `sessionData.petugasN || editData?.petugasN || 'N/A'`. */
  function OfficerName(fromSession: Option<string>, fromEdit: Option<string>): (r: string)
    ensures r != ""
    ensures Truthy(fromSession) ==> r == fromSession.value
    ensures !Truthy(fromSession) && Truthy(fromEdit) ==> r == fromEdit.value
    ensures !Truthy(fromSession) && !Truthy(fromEdit) ==> r == "N/A"
  {
    OrElse(fromSession, OrElse(fromEdit, "N/A"))
  }

  /**
   * The report `handleSubmit` builds, or nothing when no unit is known.
   * `now` is the submission time as an ISO string, `month` its month index
   * and `freshId` the id a new report would get.
   */
  function BuildReport(form: FormFields, session: LoginSession, editData: Option<ReportData>,
                       now: string, month: Constants.MonthIndex, freshId: string): (r: Option<ReportData>)
    ensures r.None? <==> CurrentUlp(session, editData).None?
    ensures r.Some? ==>
      && r.value.ulp == CurrentUlp(session, editData).value
      && r.value.id == (if editData.Some? && editData.value.id != "" then editData.value.id else freshId)
      && r.value.timestamp == now
      && r.value.bulan == Constants.Months[month]
      && r.value.petugas1 == OfficerName(session.petugas1, Edited(editData, (d: ReportData) => d.petugas1))
      && r.value.petugas2 == OfficerName(session.petugas2, Edited(editData, (d: ReportData) => d.petugas2))
      && r.value.noPenugasan == form.noPenugasan && r.value.penyulang == form.penyulang
      && r.value.keypoint == form.keypoint
      && r.value.titikStart == form.titikStart && r.value.titikFinish == form.titikFinish
      && r.value.photos == form.photos
  {
    var ulp := CurrentUlp(session, editData);
    if ulp.None? then None
    else
      Some(ReportData(
        OrElse(Edited(editData, (d: ReportData) => d.id), freshId),
        now,
        Constants.Months[month],
        form.noPenugasan,
        ulp.value,
        OfficerName(session.petugas1, Edited(editData, (d: ReportData) => d.petugas1)),
        OfficerName(session.petugas2, Edited(editData, (d: ReportData) => d.petugas2)),
        form.penyulang,
        form.keypoint,
        form.titikStart,
        form.titikFinish,
        form.photos))
  }

  /**
   * A submitted report always names a unit and two officers, editing keeps
   * the edited report's id, and its month is one of the twelve month names.
   */
  lemma BuiltReportIsComplete(form: FormFields, session: LoginSession, editData: Option<ReportData>,
                              now: string, month: Constants.MonthIndex, freshId: string)
    requires BuildReport(form, session, editData, now, month, freshId).Some?
    ensures var r := BuildReport(form, session, editData, now, month, freshId).value;
      && r.ulp != "" && r.petugas1 != "" && r.petugas2 != ""
      && r.bulan in Constants.Months
      && (editData.Some? && editData.value.id != "" ==> r.id == editData.value.id)
      && (editData.None? ==> r.id == freshId)
  {
    Constants.MonthsCoverEveryMonth();
  }

  /** The state the form keeps with `useState`. */
  class ReportForm {
    const editData: Option<ReportData>
    var noPenugasan: string
    var penyulang: string
    var keypoint: string
    var titikStart: string
    var titikFinish: string
    var photosSebelum: seq<Option<string>>
    var photosSesudah: seq<Option<string>>

    function Fields(): FormFields
      reads this
    {
      FormFields(noPenugasan, penyulang, keypoint, titikStart, titikFinish, Photos(photosSebelum, photosSesudah))
    }

    /**
     * A new report starts blank with six empty photo slots per row; an
     * edited report's fields and photos are loaded. The reset effect runs
     * on mount and keeps the loaded keypoint.
     */
    constructor (editData: Option<ReportData>)
      ensures this.editData == editData
      ensures editData.None? ==>
        && noPenugasan == "" && penyulang == "" && keypoint == ""
        && titikStart == "" && titikFinish == ""
        && photosSebelum == Constants.EmptyPhotos && photosSesudah == Constants.EmptyPhotos
      ensures editData.Some? ==>
        && noPenugasan == editData.value.noPenugasan && penyulang == editData.value.penyulang
        && keypoint == editData.value.keypoint
        && titikStart == editData.value.titikStart && titikFinish == editData.value.titikFinish
        && photosSebelum == editData.value.photos.sebelum && photosSesudah == editData.value.photos.sesudah
    {
      this.editData := editData;
      noPenugasan := OrElse(Edited(editData, (d: ReportData) => d.noPenugasan), "");
      penyulang := BaseFeeder(editData);
      var loadedKeypoint := OrElse(Edited(editData, (d: ReportData) => d.keypoint), "");
      titikStart := OrElse(Edited(editData, (d: ReportData) => d.titikStart), "");
      titikFinish := OrElse(Edited(editData, (d: ReportData) => d.titikFinish), "");
      if editData.Some? {
        photosSebelum, photosSesudah := editData.value.photos.sebelum, editData.value.photos.sesudah;
      } else {
        photosSebelum, photosSesudah := Constants.EmptyPhotos, Constants.EmptyPhotos;
      }
      KeypointResetIffFeederMoved(editData, BaseFeeder(editData), loadedKeypoint);
      keypoint := KeypointAfterEffect(editData, BaseFeeder(editData), loadedKeypoint);
    }

    /**
     * Selecting feeder `f`. When it differs from the current one the reset
     * effect runs and clears the keypoint if `f` is not the base feeder.
     */
    method ChangeFeeder(f: string)
      modifies this
      ensures penyulang == f
      ensures keypoint == if f == old(penyulang) then old(keypoint) else KeypointAfterEffect(editData, f, old(keypoint))
      ensures noPenugasan == old(noPenugasan) && titikStart == old(titikStart) && titikFinish == old(titikFinish)
      ensures photosSebelum == old(photosSebelum) && photosSesudah == old(photosSesudah)
    {
      if f != penyulang {
        penyulang := f;
        keypoint := KeypointAfterEffect(editData, f, keypoint);
      }
    }

    /**
     * `handlePhotoChange`: `resized` is the resized image, or nothing when
     * resizing failed, in which case no state changes. Only the chosen row
     * changes, and in it only slot `index`.
     */
    method ChangePhoto(index: nat, kind: PhotoKind, resized: Option<string>)
      modifies this
      ensures photosSebelum ==
        if kind == Sebelum && resized.Some? then WithSlot(old(photosSebelum), index, resized.value) else old(photosSebelum)
      ensures photosSesudah ==
        if kind == Sesudah && resized.Some? then WithSlot(old(photosSesudah), index, resized.value) else old(photosSesudah)
      ensures noPenugasan == old(noPenugasan) && penyulang == old(penyulang) && keypoint == old(keypoint)
      ensures titikStart == old(titikStart) && titikFinish == old(titikFinish)
    {
      if resized.Some? {
        if kind == Sebelum {
          photosSebelum := WithSlot(photosSebelum, index, resized.value);
        } else {
          photosSesudah := WithSlot(photosSesudah, index, resized.value);
        }
      }
    }

    /** `handleSubmit`: the report handed to `onSubmit`, or none when no unit is known. */
    method Submit(session: LoginSession, now: string, month: Constants.MonthIndex, freshId: string)
      returns (report: Option<ReportData>)
      ensures report == BuildReport(Fields(), session, editData, now, month, freshId)
    {
      report := BuildReport(Fields(), session, editData, now, month, freshId);
    }
  }
}
