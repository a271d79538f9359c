/**
 * The records shared by every screen of the patrol-report front end:
 * roles, views, service units (ULP), the per-unit master data and one
 * inspection report.
 */
module Types {

  datatype Option<+T> = None | Some(value: T)

  /** JavaScript truthiness of a nullable string: present and non-empty. */
  predicate Truthy(s: Option<string>) {
    s.Some? && s.value != ""
  }

  /** `a || b` on a nullable string followed by a string. */
  function OrElse(a: Option<string>, b: string): string {
    if Truthy(a) then a.value else b
  }

  datatype UserRole = Admin | User | Guest

  datatype ViewState = LoginView | DashboardView | InputView | TableView | SettingsView

  /** The seven service units, in the declaration order of the enum. */
  datatype ULPName =
    | Bukittinggi | PadangPanjang | LubukSikaping | LubukBasung
    | SimpangEmpat | Baso | KotoTuo
  {
    /** The string value of the enum member. */
    function Name(): string {
      match this
      case Bukittinggi => "ULP Bukittinggi"
      case PadangPanjang => "ULP Padang Panjang"
      case LubukSikaping => "ULP Lubuk Sikaping"
      case LubukBasung => "ULP Lubuk Basung"
      case SimpangEmpat => "ULP Simpang Empat"
      case Baso => "ULP Baso"
      case KotoTuo => "ULP Koto Tuo"
    }
  }

  /** The enum member whose string value is `s`, if any. */
  function UnitNamed(s: string): Option<ULPName> {
    if s == "ULP Bukittinggi" then Some(Bukittinggi)
    else if s == "ULP Padang Panjang" then Some(PadangPanjang)
    else if s == "ULP Lubuk Sikaping" then Some(LubukSikaping)
    else if s == "ULP Lubuk Basung" then Some(LubukBasung)
    else if s == "ULP Simpang Empat" then Some(SimpangEmpat)
    else if s == "ULP Baso" then Some(Baso)
    else if s == "ULP Koto Tuo" then Some(KotoTuo)
    else None
  }

  /** Reading a unit back from its name gives the unit, and only names read back to units. */
  lemma UnitNameRoundTrip(u: ULPName, s: string)
    ensures UnitNamed(u.Name()) == Some(u)
    ensures UnitNamed(s) == Some(u) ==> u.Name() == s
  {
    match u
    case Bukittinggi =>
    case PadangPanjang =>
    case LubukSikaping =>
    case LubukBasung =>
    case SimpangEmpat =>
    case Baso =>
    case KotoTuo =>
  }

  /** Distinct units have distinct names. */
  lemma UnitNamesDistinct(u: ULPName, v: ULPName)
    ensures u.Name() == v.Name() ==> u == v
  {
    UnitNameRoundTrip(u, v.Name());
    UnitNameRoundTrip(v, v.Name());
  }

  /** `Object.values(ULPName)`: every unit once, in enum order. */
  const AllUnits: seq<ULPName> :=
    [Bukittinggi, PadangPanjang, LubukSikaping, LubukBasung, SimpangEmpat, Baso, KotoTuo]

  /** The enum list holds every unit. */
  lemma EveryUnitListed(u: ULPName)
    ensures u in AllUnits
  {
  }

  /** Master data of one unit: its officers, its feeders and each feeder's keypoints. */
  datatype ULPData = ULPData(
    name: string,
    petugas: seq<string>,
    penyulang: seq<string>,
    keypoints: map<string, seq<string>>)

  /** The two photo rows of a report, six nullable image references each. */
  datatype Photos = Photos(sebelum: seq<Option<string>>, sesudah: seq<Option<string>>)

  /** One patrol-inspection report. `timestamp` is an ISO-8601 string. */
  datatype ReportData = ReportData(
    id: string,
    timestamp: string,
    bulan: string,
    noPenugasan: string,
    ulp: string,
    petugas1: string,
    petugas2: string,
    penyulang: string,
    keypoint: string,
    titikStart: string,
    titikFinish: string,
    photos: Photos)

  /** What the login screen hands to the rest of the application. */
  datatype LoginSession = LoginSession(ulp: string, petugas1: Option<string>, petugas2: Option<string>)
}
