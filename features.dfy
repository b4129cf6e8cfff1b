/** The attribute record of one clipped reference feature, and the
    null-coalescing and normalisation applied to it before any rule runs. */
module Features {
  import Text

  datatype Option<T> = None | Some(value: T)

  /** The attributes the rule engine reads. A field the feature does not carry is `None`. */
  datatype Feature = Feature(
    fKws: Option<string>,       // F_KWS: forest-area designation
    pippib: Option<string>,     // PIPPIB: peat / indicative moratorium zone
    fegKghltr: Option<string>,  // feg_kghltr: ecological function of the peat hydrological unit
    pl2024Id: Option<int>,      // PL2024_ID: land-cover class identifier
    ketinggian: Option<int>,    // Ketinggian: elevation band
    sungaiKec: Option<string>,  // Sungai_Kec: river buffer flag
    spdPantai: Option<string>,  // Spd_Pantai: coastal buffer flag
    spdDanau: Option<string>,   // Spd_Danau: lake buffer flag
    rurhl: Option<string>,      // RURHL: rehabilitation priority
    kritis: Option<string>,     // KRITIS: critical-land class
    sawit: Option<int>          // SAWIT: oil-palm flag
  )

  /** A feature that carries none of the attributes. */
  const Missing := Feature(None, None, None, None, None, None, None, None, None, None, None)

  /** `If(value, value, default)` on a text field: a missing value and an empty
      string both count as false and give the default. */
  function TextOr(v: Option<string>, default: string): (s: string)
    ensures v.None? ==> s == default
    ensures v.Some? && v.value != "" ==> s == v.value
    ensures v == Some("") ==> s == default
  {
    if v.Some? && v.value != "" then v.value else default
  }

  /** `If(value, value, default)` on a numeric field: missing and zero give the default. */
  function NumOr(v: Option<int>, default: int): (n: int)
    ensures v.None? ==> n == default
    ensures v.Some? && v.value != 0 ==> n == v.value
    ensures v == Some(0) ==> n == default
  {
    if v.Some? && v.value != 0 then v.value else default
  }

  /** Upper-case and trimmed: the form every text attribute but one is compared in. */
  predicate Canonical(s: string) {
    Text.Clean(s) && Text.NoLower(s)
  }

  /** The attribute values after null-coalescing and normalisation. */
  datatype Normalised = Normalised(
    fKws: string, pippib: string, feg: string, tuplah: int, tinggi: int,
    spdSungai: string, spdPantai: string, spdDanau: string,
    rurhl: string, lakris: string, sawit: int)

  /** `String(If(v, v, '')).trim().toUpperCase()`. */
  function TextField(v: Option<string>): (s: string)
    ensures Canonical(s)
  {
    var t := Text.Trim(TextOr(v, ""));
    UpperKeepsClean(t);
    Text.ToUpper(t)
  }

  /** Every text field is defaulted to "", trimmed and upper-cased, except
      feg_kghltr, which is only trimmed; numeric fields default to 0. */
  function Normalise(f: Feature): (n: Normalised)
    ensures Canonical(n.fKws) && Canonical(n.pippib) && Canonical(n.spdSungai)
    ensures Canonical(n.spdPantai) && Canonical(n.spdDanau)
    ensures Canonical(n.rurhl) && Canonical(n.lakris)
    ensures Text.Clean(n.feg)
  {
    Normalised(
      TextField(f.fKws), TextField(f.pippib), Text.Trim(TextOr(f.fegKghltr, "")),
      NumOr(f.pl2024Id, 0), NumOr(f.ketinggian, 0),
      TextField(f.sungaiKec), TextField(f.spdPantai), TextField(f.spdDanau),
      TextField(f.rurhl), TextField(f.kritis), NumOr(f.sawit, 0))
  }

  /** Upper-casing keeps a trimmed string trimmed. */
  lemma UpperKeepsClean(s: string)
    requires Text.Clean(s)
    ensures Text.Clean(Text.ToUpper(s))
  {
    if s != [] {
      var u := Text.ToUpper(s);
      assert u[0] == Text.UpperChar(s[0]) && u[|u| - 1] == Text.UpperChar(s[|s| - 1]);
    }
  }
}
