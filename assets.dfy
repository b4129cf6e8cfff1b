/** The province selector and the reference-layer asset each province is read from. */
module Assets {

  /** The provinces offered by the province selector, in the order shown. */
  const ProvinceOptions: seq<string> :=
    ["Jawa Tengah", "Jawa Barat", "Jawa Timur", "Kalimantan", "Sumatera1", "Sumatera2", "Papua"]

  /** The asset suffix of each province. */
  const ProvinceSuffix: map<string, string> := map[
    "Jawa Tengah" := "JatengJogja", "Jawa Barat" := "Jabar", "Jawa Timur" := "Jatim",
    "Sumatera1" := "Sumatera1", "Sumatera2" := "Sumatera2", "Kalimantan" := "Kalimantan",
    "Papua" := "Papua"]

  /** The suffix used for a province the table does not know. */
  const DefaultSuffix := "JatengJogja"

  /** Every reference layer lives under this asset folder and name prefix. */
  const AssetPrefix := "projects/papaps/assets/PAPAPS_"

  /** `mapping.get(prov, 'JatengJogja')`. */
  function Suffix(prov: string): (s: string)
    ensures prov in ProvinceSuffix ==> s == ProvinceSuffix[prov]
    ensures prov !in ProvinceSuffix ==> s == DefaultSuffix
    ensures s in ProvinceSuffix.Values
  {
    assert ProvinceSuffix["Jawa Tengah"] == DefaultSuffix;
    if prov in ProvinceSuffix then ProvinceSuffix[prov] else DefaultSuffix
  }

  /** The asset path of the reference layer for a province. */
  function AssetPath(prov: string): (p: string)
    ensures |p| > |AssetPrefix| && p[..|AssetPrefix|] == AssetPrefix
    ensures p[|AssetPrefix|..] in ProvinceSuffix.Values
    ensures p[|AssetPrefix|..] == Suffix(prov)
  {
    var s := Suffix(prov);
    assert s != "";
    AssetPrefix + s
  }

  /** Every province the selector offers has its own entry in the table. */
  lemma OptionsAreKnown()
    ensures forall prov :: prov in ProvinceOptions ==> prov in ProvinceSuffix
    ensures forall prov :: prov in ProvinceSuffix ==> prov in ProvinceOptions
  {
  }

  /** Two different provinces of the selector read two different assets. */
  lemma OptionsHaveOwnAsset(p: string, q: string)
    requires p in ProvinceOptions && q in ProvinceOptions && p != q
    ensures AssetPath(p) != AssetPath(q)
  {
  }

  /** A province the table does not know reads the Jawa Tengah asset. */
  lemma UnknownIsJawaTengah(prov: string)
    requires prov !in ProvinceSuffix
    ensures AssetPath(prov) == AssetPath("Jawa Tengah")
  {
  }
}
