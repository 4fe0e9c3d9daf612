/**
 * How the flow turns a URL and the page it fetched into a download URL and a
 * file name: the asset ID taken from the URL's path, the sound file-name rule
 * of `parseXML`, and the per-type choice of download URL and suffix made by
 * `parseHTML`.
 */
module AssetNaming {
  import opened Wrappers
  import opened JsStrings
  import opened AssetTypes

  /** The endpoint that serves a sound's XML description, by asset ID. */
  const SoundInfoEndpoint := "https://www.roblox.com/asset/?id="
  /** The endpoint that serves an asset's contents, by asset ID. */
  const DeliveryEndpoint := "https://assetdelivery.roblox.com/v1/asset/?id="

  const NoAssetId := "Could not parse Asset ID from URL."
  const NoDecalImage := "Could not find decal image element."
  const NoPluginLink := "Could not find plugin download element."
  const NoDownloadUrl := "Could not determine a download URL."
  const DefaultSoundName := "sound.ogg"

  /**
   * What the flow looks up in a fetched document. The text of the first
   * `<Content>` tag of a sound's XML; the text of the name heading, the `src`
   * of `img.asset-image` and the `href` of `a.plugin-asset` of an asset page.
   * None means the element is not in the document.
   */
  datatype Page = Page(
    content: Option<string>,
    name: Option<string>,
    imageSrc: Option<string>,
    pluginHref: Option<string>)

  /** Where to download from and under which file name to save. */
  datatype Plan = Plan(downloadUrl: string, fileName: string)

  // ---------------------------------------------------------------------
  // asset ID and sound info URL
  // ---------------------------------------------------------------------

  /** `url.split('/')[4]` when it is a non-empty string, else None. */
  function AssetId(url: string): (id: Option<string>)
    ensures id.Some? <==> Truthy(Segment(url, 4))
    ensures id.Some? ==> id.value == Segment(url, 4).value
    ensures id.Some? ==> id.value != [] && '/' !in id.value
  {
    var parts := Split(url, '/');
    SplitHasNoSeparator(url, '/');
    if Truthy(At(parts, 4)) then Some(parts[4]) else None
  }

  /**
   * The URL whose XML describes a sound: the sound info endpoint followed by
   * the asset ID, or the error that no ID could be read from the URL.
   */
  function SoundInfoUrl(url: string): (r: Result<string, string>)
    ensures r.Err? <==> !Truthy(Segment(url, 4))
    ensures r.Err? ==> r.error == NoAssetId
    ensures r.Ok? ==> r.value == SoundInfoEndpoint + Segment(url, 4).value
  {
    match AssetId(url)
    case None => Err(NoAssetId)
    case Some(id) => Ok(SoundInfoEndpoint + id)
  }

  // ---------------------------------------------------------------------
  // sound file name (parseXML)
  // ---------------------------------------------------------------------

  /**
   * The name a sound is saved under: segment 5 of the URL with every
   * character outside `[a-zA-Z0-9]` replaced by `_`, followed by `.ogg`;
   * `sound.ogg` when there is no such segment or it is empty.
   */
  function SoundFileName(url: string): (name: string)
    ensures EndsWith(name, ".ogg")
    ensures !Truthy(Segment(url, 5)) ==> name == DefaultSoundName
  {
    var title := Segment(url, 5);
    if Truthy(title) then Sanitize(title.value) + ".ogg" else DefaultSoundName
  }

  /**
   * The stem of a sound's name has the length of the URL segment it comes
   * from, holds only `[a-zA-Z0-9_]`, and keeps every alphanumeric character
   * of the segment in place.
   */
  lemma SoundFileNameShape(url: string)
    requires Truthy(Segment(url, 5))
    ensures var title := Segment(url, 5).value; var name := SoundFileName(url);
      |name| == |title| + 4 &&
      (forall i :: 0 <= i < |title| ==> IsNameChar(name[i])) &&
      (forall i :: 0 <= i < |title| && IsAlnum(title[i]) ==> name[i] == title[i]) &&
      (forall i :: 0 <= i < |title| && !IsAlnum(title[i]) ==> name[i] == '_')
  {
    var title := Segment(url, 5).value;
    var stem := Sanitize(title);
    assert SoundFileName(url) == stem + ".ogg";
    forall i | 0 <= i < |title| ensures SoundFileName(url)[i] == stem[i] {
    }
  }

  /** The page's `<Content>` text is the download URL; the name comes from the original URL. */
  function XmlPlan(originalUrl: string, page: Page): (r: Result<Plan, ()>)
    ensures r.Ok? <==> page.content.Some?
    ensures r.Ok? ==> r.value == Plan(page.content.value, SoundFileName(originalUrl))
  {
    match page.content
    case None => Err(())
    case Some(text) => Ok(Plan(text, SoundFileName(originalUrl)))
  }

  // ---------------------------------------------------------------------
  // download URL and file name of other assets (parseHTML)
  // ---------------------------------------------------------------------

  /**
   * The file name before its suffix: the trimmed text of the name element,
   * or the type, `_` and the clock reading in milliseconds when there is none.
   */
  function BaseName(kind: AssetKind, name: Option<string>, now: nat): (base: string)
    ensures name.Some? ==> base == Trim(name.value)
    ensures name.None? ==> |base| > |ValueOf(kind)| + 1 && base[..|ValueOf(kind)| + 1] == ValueOf(kind) + "_"
    ensures name.None? ==> base[|ValueOf(kind)| + 1..] == DecimalString(now)
  {
    match name
    case Some(text) => Trim(text)
    case None =>
      var base := ValueOf(kind) + "_" + DecimalString(now);
      assert base[..|ValueOf(kind)| + 1] == ValueOf(kind) + "_";
      base
  }

  /** The suffix appended to the file name of each asset type. */
  function TypeSuffix(kind: AssetKind): (suffix: string)
    ensures suffix == [] <==> !kind.Sound? && !kind.IsPageType()
  {
    match kind
    case Sound => ".ogg"
    case Decal => ".png"
    case Clothing => ".rbxm.png"
    case Plugin | Accessory | Mesh | Model => ".rbxm"
    case _ => ""
  }

  /**
   * Where an asset of a page type downloads from: the image's `src` for a
   * decal, the link's `href` for a plugin, the delivery endpoint with the
   * URL's asset ID for the ID types; the empty string for any other type.
   */
  function PageDownloadUrl(kind: AssetKind, pageUrl: string, page: Page): (r: Result<string, string>)
    ensures !kind.IsPageType() ==> r == Ok([])
    ensures kind.ByAssetId() ==> (r.Ok? <==> Truthy(Segment(pageUrl, 4)))
  {
    if kind.Decal? then
      if page.imageSrc.None? then Err(NoDecalImage) else Ok(page.imageSrc.value)
    else if kind.Plugin? then
      if page.pluginHref.None? then Err(NoPluginLink) else Ok(page.pluginHref.value)
    else if kind.ByAssetId() then
      match AssetId(pageUrl)
      case None => Err(NoAssetId)
      case Some(id) => Ok(DeliveryEndpoint + id)
    else Ok("")
  }

  /**
   * What `parseHTML` decides for an asset page: a download URL and a file
   * name made of the base name and the type's suffix, or the message of the
   * error it throws. An empty download URL is an error.
   */
  function PagePlan(kind: AssetKind, pageUrl: string, page: Page, now: nat): (r: Result<Plan, string>)
    ensures r.Ok? ==> kind.IsPageType() && r.value.downloadUrl != []
  {
    match PageDownloadUrl(kind, pageUrl, page)
    case Err(m) => Err(m)
    case Ok(url) =>
      if url == [] then Err(NoDownloadUrl)
      else Ok(Plan(url, BaseName(kind, page.name, now) + TypeSuffix(kind)))
  }

  /**
   * `parseHTML`'s decisions, step by step as the source takes them: the
   * locals `downloadUrl` and `fileName` start empty and are reassigned by the
   * name lookup and then by the branch of the asset type; an error ends the
   * steps early.
   */
  method ResolvePageDownload(page: Page, kind: AssetKind, pageUrl: string, now: nat)
    returns (r: Result<Plan, string>)
    ensures r == PagePlan(kind, pageUrl, page, now)
  {
    var downloadUrl := "";
    var fileName := "";
    if page.name.None? {
      fileName := ValueOf(kind) + "_" + DecimalString(now);
    } else {
      fileName := Trim(page.name.value);
    }
    if kind.Decal? {
      if page.imageSrc.None? {
        return Err(NoDecalImage);
      }
      downloadUrl := page.imageSrc.value;
      fileName := fileName + ".png";
    } else if kind.Plugin? {
      if page.pluginHref.None? {
        return Err(NoPluginLink);
      }
      downloadUrl := page.pluginHref.value;
      fileName := fileName + ".rbxm";
    } else if kind.ByAssetId() {
      var assetId := Segment(pageUrl, 4);
      if !Truthy(assetId) {
        return Err(NoAssetId);
      }
      downloadUrl := DeliveryEndpoint + assetId.value;
      fileName := fileName + ".rbxm";
      if kind.Clothing? {
        fileName := fileName + ".png";
      }
    }
    assert PageDownloadUrl(kind, pageUrl, page) == Ok(downloadUrl);
    if downloadUrl == "" {
      return Err(NoDownloadUrl);
    }
    assert fileName == BaseName(kind, page.name, now) + TypeSuffix(kind);
    r := Ok(Plan(downloadUrl, fileName));
  }

  /** A decal downloads from its image's `src` and is saved as `.png`. */
  lemma DecalPlan(pageUrl: string, page: Page, now: nat)
    ensures page.imageSrc.None? ==> PagePlan(Decal, pageUrl, page, now) == Err(NoDecalImage)
    ensures page.imageSrc == Some("") ==> PagePlan(Decal, pageUrl, page, now) == Err(NoDownloadUrl)
    ensures PagePlan(Decal, pageUrl, page, now).Ok? ==>
      var p := PagePlan(Decal, pageUrl, page, now).value;
      Some(p.downloadUrl) == page.imageSrc && EndsWith(p.fileName, ".png")
    ensures page.imageSrc.Some? && page.imageSrc.value != [] ==>
      PagePlan(Decal, pageUrl, page, now) == Ok(Plan(page.imageSrc.value, BaseName(Decal, page.name, now) + ".png"))
  {
  }

  /** A plugin downloads from its link's `href` and is saved as `.rbxm`. */
  lemma PluginPlan(pageUrl: string, page: Page, now: nat)
    ensures page.pluginHref.None? ==> PagePlan(Plugin, pageUrl, page, now) == Err(NoPluginLink)
    ensures page.pluginHref == Some("") ==> PagePlan(Plugin, pageUrl, page, now) == Err(NoDownloadUrl)
    ensures PagePlan(Plugin, pageUrl, page, now).Ok? ==>
      var p := PagePlan(Plugin, pageUrl, page, now).value;
      Some(p.downloadUrl) == page.pluginHref && EndsWith(p.fileName, ".rbxm")
    ensures page.pluginHref.Some? && page.pluginHref.value != [] ==>
      PagePlan(Plugin, pageUrl, page, now) == Ok(Plan(page.pluginHref.value, BaseName(Plugin, page.name, now) + ".rbxm"))
  {
  }

  /**
   * An accessory, clothing, mesh or model downloads from the delivery
   * endpoint with the asset ID of its page URL, whatever the page holds
   * besides its name; it is saved as `.rbxm`, and clothing as `.rbxm.png`.
   */
  lemma AssetIdPlan(kind: AssetKind, pageUrl: string, page: Page, now: nat)
    requires kind.ByAssetId()
    ensures !Truthy(Segment(pageUrl, 4)) ==> PagePlan(kind, pageUrl, page, now) == Err(NoAssetId)
    ensures Truthy(Segment(pageUrl, 4)) ==>
      var p := PagePlan(kind, pageUrl, page, now);
      p.Ok? && p.value.downloadUrl == DeliveryEndpoint + Segment(pageUrl, 4).value &&
      EndsWith(p.value.fileName, if kind.Clothing? then ".rbxm.png" else ".rbxm")
  {
    if Truthy(Segment(pageUrl, 4)) {
      var p := PagePlan(kind, pageUrl, page, now).value;
      var base := BaseName(kind, page.name, now);
      assert p.fileName == base + TypeSuffix(kind);
    }
  }

  /** Any type other than the six known ones yields no download URL, and so an error. */
  lemma UnknownTypeFails(kind: AssetKind, pageUrl: string, page: Page, now: nat)
    requires !kind.IsPageType()
    ensures PagePlan(kind, pageUrl, page, now) == Err(NoDownloadUrl)
  {
  }

  /** Every plan names its file with the type's suffix after the base name. */
  lemma PlanFileName(kind: AssetKind, pageUrl: string, page: Page, now: nat)
    requires PagePlan(kind, pageUrl, page, now).Ok?
    ensures kind.IsPageType()
    ensures var p := PagePlan(kind, pageUrl, page, now).value;
      p.downloadUrl != [] && p.fileName == BaseName(kind, page.name, now) + TypeSuffix(kind) &&
      EndsWith(p.fileName, TypeSuffix(kind))
  {
  }
}
