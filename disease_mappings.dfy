/**
 * Visual properties per classification: a fill colour with a gray
 * fallback, an icon per colour key, and the point sizes of the two map
 * layers.
 */
module DiseaseMappings {
  import opened Base
  import Assoc

  /** A colour as `[r, g, b, a]`. */
  datatype Rgba = Rgba(r: int, g: int, b: int, a: int)

  const OTHER := "Other"
  const GRAY := Rgba(149, 165, 166, 200)

  const DISEASE_COLORS: seq<(string, Rgba)> := [
    ("Ankylosing Spondylitis", Rgba(230, 126, 34, 200)),
    ("Hidradenitis Suppurativa", Rgba(155, 89, 182, 200)),
    ("Multiple Sclerosis", Rgba(52, 152, 219, 200)),
    ("Asthma", Rgba(46, 204, 113, 200)),
    ("Breast Cancer", Rgba(231, 76, 60, 200)),
    ("Diabetes", Rgba(241, 196, 15, 200)),
    ("Heart Disease", Rgba(231, 76, 60, 200)),
    ("Hypertension", Rgba(52, 73, 94, 200)),
    ("Migraine", Rgba(155, 89, 182, 200)),
    (OTHER, GRAY)
  ]

  /** Four components in 0..255, with the common alpha 200. */
  predicate ValidColor(c: Rgba) {
    0 <= c.r <= 255 && 0 <= c.g <= 255 && 0 <= c.b <= 255 && c.a == 200
  }

  /** `DISEASE_COLORS[disease] || DISEASE_COLORS['Other']` (every entry is an array, hence truthy). */
  function GetDiseaseColor(disease: string): (c: Option<Rgba>)
    ensures c.Some? && ValidColor(c.value)
    ensures Assoc.HasKey(DISEASE_COLORS, disease) ==> c == Assoc.Get(DISEASE_COLORS, disease)
    ensures !Assoc.HasKey(DISEASE_COLORS, disease) ==> c == Some(GRAY)
  {
    assert forall i :: 0 <= i < |DISEASE_COLORS| ==> ValidColor(DISEASE_COLORS[i].1);
    var own := Assoc.Get(DISEASE_COLORS, disease);
    if own.Some? then own
    else
      Assoc.GetFirst(DISEASE_COLORS, |DISEASE_COLORS| - 1, OTHER);
      Assoc.Get(DISEASE_COLORS, OTHER)
  }

  /** Three of the seven filterable classifications have no colour of their own and are drawn gray. */
  lemma UncoloredClassifications()
    ensures GetDiseaseColor("Plaque Psoriasis") == Some(GRAY)
    ensures GetDiseaseColor("Psoriatic Arthritis") == Some(GRAY)
    ensures GetDiseaseColor("Sjögren's Syndrome") == Some(GRAY)
  {
    NotAKey("Plaque Psoriasis");
    NotAKey("Psoriatic Arthritis");
    NotAKey("Sjögren's Syndrome");
  }

  lemma NotAKey(d: string)
    requires forall i :: 0 <= i < |DISEASE_COLORS| ==> DISEASE_COLORS[i].0 != d
    ensures !Assoc.HasKey(DISEASE_COLORS, d)
  {
  }

  const ICON := "/icons/speech-bubble.svg"

  /** The `reduce` over the colour keys that builds `DISEASE_ICONS`. */
  function IconsFrom(keys: seq<string>): seq<(string, string)> {
    if keys == [] then [] else Assoc.Set(IconsFrom(keys[..|keys| - 1]), keys[|keys| - 1], ICON)
  }

  function DiseaseIcons(): seq<(string, string)> {
    IconsFrom(Assoc.Keys(DISEASE_COLORS))
  }

  predicate Distinct(keys: seq<string>) {
    forall i, j :: 0 <= i < j < |keys| ==> keys[i] != keys[j]
  }

  /** Folding distinct keys gives exactly those keys, each mapped to the one icon. */
  lemma {:induction false} IconsFromKeys(keys: seq<string>)
    requires Distinct(keys)
    ensures Assoc.Keys(IconsFrom(keys)) == keys
    ensures forall i :: 0 <= i < |IconsFrom(keys)| ==> IconsFrom(keys)[i].1 == ICON
  {
    if keys != [] {
      var init, k := keys[..|keys| - 1], keys[|keys| - 1];
      IconsFromKeys(init);
      var m := IconsFrom(init);
      Assoc.HasKeyIffInKeys(m, k);
      forall j | 0 <= j < |init|
        ensures init[j] != k
      {
        assert init[j] == keys[j];
      }
      assert IconsFrom(keys) == m + [(k, ICON)];
      Assoc.KeysSnoc(m, (k, ICON));
      InitLast(keys);
    }
  }

  /** `DISEASE_ICONS` has exactly the keys of `DISEASE_COLORS`, in the same order, all with the one icon. */
  lemma IconsMatchColors()
    ensures Assoc.Keys(DiseaseIcons()) == Assoc.Keys(DISEASE_COLORS)
    ensures forall i :: 0 <= i < |DiseaseIcons()| ==> DiseaseIcons()[i].1 == ICON
  {
    assert Distinct(Assoc.Keys(DISEASE_COLORS));
    IconsFromKeys(Assoc.Keys(DISEASE_COLORS));
  }

  /** `DISEASE_ICONS[disease] || DISEASE_ICONS['Other']`. */
  function GetDiseaseIcon(disease: string): Option<string> {
    var own := Assoc.Get(DiseaseIcons(), disease);
    if own.Some? && own.value != "" then own else Assoc.Get(DiseaseIcons(), OTHER)
  }

  /** Every classification, known or not, gets the speech-bubble icon. */
  lemma IconIsConstant(disease: string)
    ensures GetDiseaseIcon(disease) == Some(ICON)
  {
    IconsMatchColors();
    var icons := DiseaseIcons();
    var own := Assoc.Get(icons, disease);
    if own.Some? {
      var i :| 0 <= i < |icons| && icons[i] == (disease, own.value);
    } else {
      assert Assoc.Keys(icons)[|icons| - 1] == OTHER;
      Assoc.HasKeyIffInKeys(icons, OTHER);
      var other := Assoc.Get(icons, OTHER);
      var i :| 0 <= i < |icons| && icons[i] == (OTHER, other.value);
    }
  }

  /** Radius in metres and its bounds on screen. */
  datatype PointSize = PointSize(base: int, minPixels: int, maxPixels: int)

  const INDIVIDUAL := PointSize(5000, 22, 40)
  const CLUSTER := PointSize(8000, 30, 80)

  /** `POINT_SIZES.CLUSTER` or `POINT_SIZES.INDIVIDUAL`: a positive base radius and a pixel range whose floor is below its ceiling; clusters are the larger. */
  function PointSizeOf(cluster: bool): (s: PointSize)
    ensures s.base > 0 && 0 < s.minPixels <= s.maxPixels
    ensures cluster ==> s.base > INDIVIDUAL.base && s.maxPixels > INDIVIDUAL.maxPixels
  {
    if cluster then CLUSTER else INDIVIDUAL
  }
}
