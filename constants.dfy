/**
 * The built-in reference data: the default unit catalog, the Indonesian
 * month names and the six photo sections of a report.
 */
module Constants {
  import opened Types

  /** The catalog entry of one unit, as the default data lists it. */
  function DefaultUnit(u: ULPName): ULPData {
    match u
    case Bukittinggi => ULPData(u.Name(),
      ["Ahmad Zaki", "Budi Santoso", "Candra Wijaya", "Doni Kurniawan"],
      ["BKT.01", "BKT.02", "BKT.03", "BKT.Express"],
      map["BKT.01" := ["KP BKT1-A", "KP BKT1-B", "KP BKT1-C"],
          "BKT.02" := ["KP BKT2-X", "KP BKT2-Y"],
          "BKT.03" := ["KP BKT3-Alpha", "KP BKT3-Beta"],
          "BKT.Express" := ["Express Point A", "Express Point B"]])
    case PadangPanjang => ULPData(u.Name(),
      ["Eko Prasetyo", "Fajar Nugroho", "Gilang Ramadhan"],
      ["PP.01", "PP.02", "PP.Industri"],
      map["PP.01" := ["Keypoint PP1-1", "Keypoint PP1-2"],
          "PP.02" := ["Keypoint PP2-A", "Keypoint PP2-B"],
          "PP.Industri" := ["Zone Industri 1", "Zone Industri 2"]])
    case LubukSikaping => ULPData(u.Name(),
      ["Hendra Gunawan", "Indra Lesmana", "Joko Susilo"],
      ["LBS.01", "LBS.02"],
      map["LBS.01" := ["LBS.01-KP1", "LBS.01-KP2"],
          "LBS.02" := ["LBS.02-KP1", "LBS.02-KP2"]])
    case LubukBasung => ULPData(u.Name(),
      ["Kiki Amalia", "Lukman Hakim", "Muhammad Ilham"],
      ["LBB.01", "LBB.02", "LBB.03"],
      map["LBB.01" := ["LBB.01-A", "LBB.01-B"],
          "LBB.02" := ["LBB.02-A", "LBB.02-B"],
          "LBB.03" := ["LBB.03-A", "LBB.03-B"]])
    case SimpangEmpat => ULPData(u.Name(),
      ["Nanda Putra", "Oki Setiawan", "Putra Pratama"],
      ["SPE.01", "SPE.02", "SPE.03", "SPE.04"],
      map["SPE.01" := ["SPE.01-Point1", "SPE.01-Point2"],
          "SPE.02" := ["SPE.02-Point1", "SPE.02-Point2"],
          "SPE.03" := ["SPE.03-Point1", "SPE.03-Point2"],
          "SPE.04" := ["SPE.04-Point1", "SPE.04-Point2"]])
    case Baso => ULPData(u.Name(),
      ["Qori Sandi", "Rian Hidayat", "Surya Saputra"],
      ["BSO.01", "BSO.02"],
      map["BSO.01" := ["BSO-1", "BSO-2"],
          "BSO.02" := ["BSO-3", "BSO-4"]])
    case KotoTuo => ULPData(u.Name(),
      ["Taufik Hidayat", "Usman Harun", "Vicky Nitinegoro"],
      ["KT.01", "KT.02"],
      map["KT.01" := ["KT1-1", "KT1-2"],
          "KT.02" := ["KT2-1", "KT2-2"]])
  }

  /** `DATA_ULP`: one entry per unit, keyed by the unit's name. */
  const DataUlp: map<string, ULPData> := map[
    Bukittinggi.Name() := DefaultUnit(Bukittinggi),
    PadangPanjang.Name() := DefaultUnit(PadangPanjang),
    LubukSikaping.Name() := DefaultUnit(LubukSikaping),
    LubukBasung.Name() := DefaultUnit(LubukBasung),
    SimpangEmpat.Name() := DefaultUnit(SimpangEmpat),
    Baso.Name() := DefaultUnit(Baso),
    KotoTuo.Name() := DefaultUnit(KotoTuo)]

  /** `MONTHS`. */
  const Months: seq<string> :=
    ["Januari", "Februari", "Maret", "April", "Mei", "Juni",
     "Juli", "Agustus", "September", "Oktober", "November", "Desember"]

  /** `PHOTO_SECTIONS`. */
  const PhotoSections: seq<int> := [1, 2, 3, 4, 5, 6]

  /** The number of photo slots in each row of a report. */
  const PhotoSlots: nat := 6

  /** `Array(6).fill(null)`: a photo row with every slot empty. */
  const EmptyPhotos: seq<Option<string>> := seq(PhotoSlots, _ => None)

  /** A month index as `Date.prototype.getMonth` returns it. */
  type MonthIndex = m: int | 0 <= m < 12

  /** The month lookup is always in range: there are twelve names, one per month index. */
  lemma MonthsCoverEveryMonth()
    ensures |Months| == 12
    ensures forall m: MonthIndex :: Months[m] in Months
  {
  }

  /** The photo sections number the six slots of a photo row, 1 to 6. */
  lemma PhotoSectionsMatchSlots()
    ensures |PhotoSections| == |EmptyPhotos| == PhotoSlots
    ensures forall i :: 0 <= i < |PhotoSections| ==> PhotoSections[i] == i + 1
    ensures forall i :: 0 <= i < |EmptyPhotos| ==> EmptyPhotos[i] == None
  {
  }

  /** Each default entry carries its own unit's name. */
  lemma DefaultUnitNamed(u: ULPName)
    ensures DefaultUnit(u).name == u.Name()
  {
  }

  /** The catalog is keyed by the names of the enum's units, one entry each. */
  lemma CatalogKeys()
    ensures DataUlp.Keys == set u | u in AllUnits :: u.Name()
  {
  }

  /** Under each unit's name the catalog holds that unit's default entry. */
  lemma CatalogEntries()
    ensures forall u :: u in AllUnits ==> u.Name() in DataUlp && DataUlp[u.Name()] == DefaultUnit(u)
  {
    forall u: ULPName, v: ULPName | u != v ensures u.Name() != v.Name() { UnitNamesDistinct(u, v); }
  }

  /** Every key of the catalog is the name its entry carries. */
  lemma CatalogKeysAreNames()
    ensures forall k :: k in DataUlp ==> DataUlp[k].name == k
  {
    forall k | k in DataUlp
      ensures DataUlp[k].name == k
    {
      var u :| u in AllUnits && u.Name() == k;
      CatalogEntries();
      DefaultUnitNamed(u);
    }
  }

  /** Every feeder the catalog lists for a unit has a keypoint list of its own, and that list is not empty. */
  lemma EveryFeederHasKeypoints()
    ensures forall k, f :: k in DataUlp && f in DataUlp[k].penyulang ==>
      f in DataUlp[k].keypoints && DataUlp[k].keypoints[f] != []
  {
    forall k, f | k in DataUlp && f in DataUlp[k].penyulang
      ensures f in DataUlp[k].keypoints && DataUlp[k].keypoints[f] != []
    {
      var u :| u in AllUnits && u.Name() == k;
      CatalogEntries();
      FeedersHaveKeypoints(u);
    }
  }

  lemma FeedersHaveKeypoints(u: ULPName)
    ensures forall f :: f in DefaultUnit(u).penyulang ==>
      f in DefaultUnit(u).keypoints && DefaultUnit(u).keypoints[f] != []
  {
  }
}
