/** The records, the phase enumeration and the built-in catalog of the
    application (types.ts and constants.ts). */
module Types {
  import opened Wrappers

  /** The five phases of the try-on session (the `AppState` enum). */
  datatype AppState = Idle | Analyzing | Shopping | GeneratingTryOn | Result

  /** The structured answer of the face analysis (`FaceAnalysis`). */
  datatype FaceAnalysis = FaceAnalysis(
    faceShape: string,
    skinTone: string,
    currentHairTexture: string,
    hairColorEstimate: string,
    styleAdvice: string)

  /** One selectable hairstyle (`HairstyleItem`); `isCustom` is an optional
      field, absent on the built-in items. */
  datatype HairstyleItem = HairstyleItem(
    id: string,
    name: string,
    category: string,
    description: string,
    image: string,
    isCustom: Option<bool>)

  /** JavaScript truthiness of an optional string: absent and "" are falsy. */
  predicate Truthy(s: Option<string>)
  {
    s.Some? && s.value != ""
  }

  /** JavaScript truthiness of the optional `isCustom` flag. */
  predicate IsCustom(item: HairstyleItem)
  {
    item.isCustom == Some(true)
  }

  /** The static fallback catalog (`HAIRSTYLE_CATALOG`), in source order. */
  const HairstyleCatalog: seq<HairstyleItem> := [
    HairstyleItem("1", "Platinum Pixie", "Short",
      "a modern, edgy platinum blonde pixie cut with textured layers",
      "https://images.unsplash.com/photo-1595476108010-b4d1f102b1b1?auto=format&fit=crop&w=200&q=80", None),
    HairstyleItem("2", "Long Beach Waves", "Long",
      "long, flowing brunette hair with loose, sun-kissed beach waves",
      "https://images.unsplash.com/photo-1519699047748-de8e457a634e?auto=format&fit=crop&w=200&q=80", None),
    HairstyleItem("3", "Neon Cyber Bob", "Creative",
      "a sharp, asymmetrical bob cut dyed in vibrant neon pink and blue cyberpunk style",
      "https://images.unsplash.com/photo-1582095133179-bfd08d3d95b5?auto=format&fit=crop&w=200&q=80", None),
    HairstyleItem("4", "Afro Puff", "Natural",
      "voluminous natural afro hair styled in a high puff",
      "https://images.unsplash.com/photo-1605497788044-5a32c7078486?auto=format&fit=crop&w=200&q=80", None),
    HairstyleItem("5", "Sleek High Pony", "Updo",
      "a very long, sleek, high ponytail extension, Ariana Grande style",
      "https://images.unsplash.com/photo-1517841905240-472988babdf9?auto=format&fit=crop&w=200&q=80", None),
    HairstyleItem("6", "Redhead Curtain Bangs", "Medium",
      "copper red hair, shoulder length with trendy curtain bangs",
      "https://images.unsplash.com/photo-1523264626871-36e6504a7541?auto=format&fit=crop&w=200&q=80", None)
  ]
}
