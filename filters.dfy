/** The filter catalogue of the photo studio and the two lookups that turn a
    filter name into a style: `FilterClass`, the CSS class put on the live
    preview and on every strip photo, and `CanvasFilter`, the canvas filter
    string a frame is drawn through when it is captured. Both switch on the
    lower-cased name. */
module Filters {

  /** The filter bar, in display order. */
  const CATALOG: seq<string> :=
    ["90s", "2000s", "Grainy", "Noir", "Fisheye", "Soft Glow", "Rose Gold", "Polaroid", "Glitch", "Crosshatch"]

  /** The canvas filter used when the lower-cased name matches no case. */
  const IDENTITY := "none"

  predicate IsUpper(c: char) {
    'A' <= c <= 'Z'
  }

  /** Lower-cases one character (ASCII letters only). */
  function LowerChar(c: char): char {
    if IsUpper(c) then (c as int + 32) as char else c
  }

  /** `String.prototype.toLowerCase`, restricted to the ASCII letters. */
  function ToLower(s: string): string {
    seq(|s|, i requires 0 <= i < |s| => LowerChar(s[i]))
  }

  /** A lower-cased string holds no upper-case letter. */
  lemma ToLowerHasNoUpper(s: string)
    ensures |ToLower(s)| == |s|
    ensures forall i :: 0 <= i < |ToLower(s)| ==> !IsUpper(ToLower(s)[i])
  {
  }

  /** Lower-casing twice is lower-casing once. */
  lemma ToLowerIdempotent(s: string)
    ensures ToLower(ToLower(s)) == ToLower(s)
  {
  }

  /** A string starting with an upper-case letter is never the result of
      lower-casing. */
  lemma NeverLowered(filter: string, literal: string)
    requires |literal| > 0 && IsUpper(literal[0])
    ensures ToLower(filter) != literal
  {
    if |filter| > 0 {
      assert !IsUpper(ToLower(filter)[0]);
    }
  }

  /** The `"Soft Glow"` and `"Rose Gold"` cases of `getFilterClass` compare a
      lower-cased name against a literal with capitals, so they never match.
      (The canvas switch spells them `"soft-glow"` and `"rose-gold"`, which
      can match.) */
  lemma DeadCases(filter: string)
    ensures ToLower(filter) != "Soft Glow"
    ensures ToLower(filter) != "Rose Gold"
  {
    NeverLowered(filter, "Soft Glow");
    NeverLowered(filter, "Rose Gold");
  }

  /** `getFilterClass`: the CSS class of a filter name. */
  function FilterClass(filter: string): string {
    ClassOfKey(ToLower(filter))
  }

  /** The cases of the switch in `getFilterClass`, on the lower-cased name. */
  function ClassOfKey(key: string): string {
    if key == "90s" then "_90s"
    else if key == "2000s" then "_2000s"
    else if key == "Soft Glow" then "soft-glow"
    else if key == "Rose Gold" then "rose-gold"
    else key
  }

  /** What `FilterClass` really does: two names get an underscore prefix and
      every other name is just lower-cased. */
  lemma FilterClassCases(filter: string)
    ensures ToLower(filter) == "90s" ==> FilterClass(filter) == "_90s"
    ensures ToLower(filter) == "2000s" ==> FilterClass(filter) == "_2000s"
    ensures ToLower(filter) !in {"90s", "2000s"} ==> FilterClass(filter) == ToLower(filter)
  {
    DeadCases(filter);
  }

  /** The class never depends on the case of the name. */
  lemma FilterClassIgnoresCase(filter: string)
    ensures FilterClass(ToLower(filter)) == FilterClass(filter)
  {
    ToLowerIdempotent(filter);
  }

  /** A class is never written with capitals. */
  lemma FilterClassIsLowerCase(filter: string)
    ensures forall i :: 0 <= i < |FilterClass(filter)| ==> !IsUpper(FilterClass(filter)[i])
  {
    FilterClassCases(filter);
    ToLowerHasNoUpper(filter);
  }

  /** The switch in `takePhoto`: the canvas filter of a filter name. */
  function CanvasFilter(selected: string): string {
    TransformOfKey(ToLower(selected))
  }

  /** The cases of the switch in `takePhoto`, on the lower-cased name. */
  function TransformOfKey(key: string): string {
    if key == "noir" then "grayscale(1) contrast(0.8) brightness(1.1)"
    else if key == "90s" then "contrast(1.1) sepia(0.3) hue-rotate(-10deg) saturate(0.8) brightness(1.1)"
    else if key == "grainy" then "url('#grain') brightness(1.2)"
    else if key == "2000s" then "saturate(1.8) contrast(1.05) brightness(1.1) sepia(0.1) hue-rotate(10deg)"
    else if key == "soft-glow" then "brightness(1.1) contrast(0.9) saturate(1.1) blur(0.2px)"
    else if key == "rose-gold" then "hue-rotate(-15deg) saturate(1.3) brightness(1.08) contrast(1.1) sepia(0.1)"
    else if key == "polaroid" then "contrast(1.1) brightness(1.1) saturate(1.2) sepia(0.2)"
    else if key == "glitch" then "contrast(1.5) saturate(2)"
    else if key == "crosshatch" then "grayscale(0.5) blur(1px)"
    else if key == "fisheye" then "brightness(1.1)"
    else IDENTITY
  }

  /** The same mapping written as a static table keyed by lower-cased name. */
  const TRANSFORMS: map<string, string> := map[
    "noir" := "grayscale(1) contrast(0.8) brightness(1.1)",
    "90s" := "contrast(1.1) sepia(0.3) hue-rotate(-10deg) saturate(0.8) brightness(1.1)",
    "grainy" := "url('#grain') brightness(1.2)",
    "2000s" := "saturate(1.8) contrast(1.05) brightness(1.1) sepia(0.1) hue-rotate(10deg)",
    "soft-glow" := "brightness(1.1) contrast(0.9) saturate(1.1) blur(0.2px)",
    "rose-gold" := "hue-rotate(-15deg) saturate(1.3) brightness(1.08) contrast(1.1) sepia(0.1)",
    "polaroid" := "contrast(1.1) brightness(1.1) saturate(1.2) sepia(0.2)",
    "glitch" := "contrast(1.5) saturate(2)",
    "crosshatch" := "grayscale(0.5) blur(1px)",
    "fisheye" := "brightness(1.1)"
  ]

  /** The switch is a total lookup in the table, falling back to the identity
      filter; a name gets `"none"` exactly when its lower-cased form is not a
      key of the table. */
  lemma CanvasFilterIsLookup(selected: string)
    ensures ToLower(selected) in TRANSFORMS ==> CanvasFilter(selected) == TRANSFORMS[ToLower(selected)]
    ensures ToLower(selected) !in TRANSFORMS ==> CanvasFilter(selected) == IDENTITY
    ensures CanvasFilter(selected) == IDENTITY <==> ToLower(selected) !in TRANSFORMS
  {
  }

  /** The canvas filter never depends on the case of the name. */
  lemma CanvasFilterIgnoresCase(selected: string)
    ensures CanvasFilter(ToLower(selected)) == CanvasFilter(selected)
  {
    ToLowerIdempotent(selected);
  }

  /** The catalogue as the filter bar offers it: eight names get their own
      canvas filter, while `"Soft Glow"` and `"Rose Gold"` lower-case to
      names with a space, miss the hyphenated cases and fall back to
      `"none"`. */
  lemma CatalogFallback()
    ensures forall i :: 0 <= i < |CATALOG| ==>
              (CanvasFilter(CATALOG[i]) == IDENTITY <==> CATALOG[i] in {"Soft Glow", "Rose Gold"})
  {
    CatalogKeys();
    forall i | 0 <= i < |CATALOG|
      ensures CanvasFilter(CATALOG[i]) == IDENTITY <==> CATALOG[i] in {"Soft Glow", "Rose Gold"}
    {
      CanvasFilterIsLookup(CATALOG[i]);
    }
  }

  /** `"Noir"` is drawn in grayscale and shown with the class `"noir"`. */
  lemma NoirStyle()
    ensures CanvasFilter("Noir") == "grayscale(1) contrast(0.8) brightness(1.1)"
    ensures FilterClass("Noir") == "noir"
  {
    assert ToLower("Noir") == "noir";
  }

  /** Named cases: `"Soft Glow"` and `"Rose Gold"` get no canvas filter and
      the classes `"soft glow"` and `"rose gold"`; the decade names get the
      underscore classes. */
  lemma NamedStyles()
    ensures CanvasFilter("Soft Glow") == IDENTITY && CanvasFilter("Rose Gold") == IDENTITY
    ensures FilterClass("Soft Glow") == "soft glow" && FilterClass("Rose Gold") == "rose gold"
    ensures FilterClass("90s") == "_90s" && FilterClass("2000s") == "_2000s"
  {
    CatalogKeys();
    assert CATALOG[5] == "Soft Glow" && CATALOG[6] == "Rose Gold";
  }

  /** The lower-cased names of the catalogue, the keys both switches see. */
  lemma CatalogKeys()
    ensures forall i :: 0 <= i < |CATALOG| ==> ToLower(CATALOG[i]) == CATALOG_KEYS[i]
  {
    assert ToLower("90s") == "90s";
    assert ToLower("2000s") == "2000s";
    assert ToLower("Grainy") == "grainy";
    assert ToLower("Noir") == "noir";
    assert ToLower("Fisheye") == "fisheye";
    assert ToLower("Soft Glow") == "soft glow";
    assert ToLower("Rose Gold") == "rose gold";
    assert ToLower("Polaroid") == "polaroid";
    assert ToLower("Glitch") == "glitch";
    assert ToLower("Crosshatch") == "crosshatch";
  }

  const CATALOG_KEYS: seq<string> :=
    ["90s", "2000s", "grainy", "noir", "fisheye", "soft glow", "rose gold", "polaroid", "glitch", "crosshatch"]
}
