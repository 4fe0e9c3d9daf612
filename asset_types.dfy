/**
 * The value of the asset type selector. The page compares it with fixed
 * strings; the model reads it once into `AssetKind`, keeping any other value
 * as it is, so that no information is lost.
 */
module AssetTypes {

  /** What the type selector can hold: its unselected value, the seven types, or anything else. */
  datatype AssetKind =
    | Placeholder
    | Sound
    | Decal
    | Plugin
    | Accessory
    | Clothing
    | Mesh
    | Model
    | Other(value: string)
  {
    /** One of `'accessory'`, `'clothing'`, `'mesh'`, `'model'`: downloaded by the asset ID of the page URL. */
    predicate ByAssetId()
    {
      Accessory? || Clothing? || Mesh? || Model?
    }

    /** One of the types `parseHTML` knows how to download. */
    predicate IsPageType()
    {
      Decal? || Plugin? || ByAssetId()
    }
  }

  /** The selector's string for each kind. */
  function ValueOf(kind: AssetKind): string
  {
    match kind
    case Placeholder => "placeholder"
    case Sound => "sound"
    case Decal => "decal"
    case Plugin => "plugin"
    case Accessory => "accessory"
    case Clothing => "clothing"
    case Mesh => "mesh"
    case Model => "model"
    case Other(value) => value
  }

  /** The kind of a selector value: the named kind whose string it equals, else `Other`. */
  function KindOf(value: string): (kind: AssetKind)
    ensures ValueOf(kind) == value
  {
    if value == "placeholder" then Placeholder
    else if value == "sound" then Sound
    else if value == "decal" then Decal
    else if value == "plugin" then Plugin
    else if value == "accessory" then Accessory
    else if value == "clothing" then Clothing
    else if value == "mesh" then Mesh
    else if value == "model" then Model
    else Other(value)
  }

  /** A kind whose value is not one of the named strings. */
  predicate Canonical(kind: AssetKind)
  {
    kind.Other? ==> KindOf(kind.value) == kind
  }

  /** Every kind read from the selector is canonical. */
  lemma KindOfCanonical(value: string)
    ensures Canonical(KindOf(value))
  {
  }

  /** Reading back the value of a canonical kind gives the kind. */
  lemma KindOfValueOf(kind: AssetKind)
    requires Canonical(kind)
    ensures KindOf(ValueOf(kind)) == kind
  {
  }

  /** Different values give different kinds: reading the selector loses nothing. */
  lemma KindOfInjective(a: string, b: string)
    requires KindOf(a) == KindOf(b)
    ensures a == b
  {
    assert ValueOf(KindOf(a)) == a;
  }
}
