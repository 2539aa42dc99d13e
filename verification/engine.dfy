/** The brand-input helpers of `MarketGenomeEngine`: input-type detection,
    website guessing, the bounded website summary, the context string handed
    to the AI service, data collection, and the API-key check of the
    constructor. Fetching and HTML parsing are a parameter `fetch`. */
module Engine {

  import opened Wrappers
  import opened Strings

  /** `_detect_input_type`: case-sensitive prefix and substring tests. */
  function DetectInputType(input: string): (t: string)
    ensures t in {"website", "instagram", "twitter", "social", "brand_name"}
    ensures t == "website" <==>
      StartsWith(input, "http://") || StartsWith(input, "https://") || StartsWith(input, "www.")
    ensures t in {"instagram", "twitter", "social"} <==> t != "website" && StartsWith(input, "@")
    ensures t == "instagram" <==>
      t != "website" && StartsWith(input, "@") && (Contains(input, "instagram") || Contains(input, "insta"))
    ensures t == "twitter" <==>
      && t != "website" && StartsWith(input, "@")
      && !(Contains(input, "instagram") || Contains(input, "insta"))
      && (Contains(input, "twitter") || Contains(input, "x.com"))
  {
    if StartsWith(input, "http://") || StartsWith(input, "https://") || StartsWith(input, "www.") then "website"
    else if StartsWith(input, "@") then
      if Contains(input, "instagram") || Contains(input, "insta") then "instagram"
      else if Contains(input, "twitter") || Contains(input, "x.com") then "twitter"
      else "social"
    else "brand_name"
  }

  /** A handle starting with '@' can never be taken for a website. */
  lemma HandleIsNotWebsite(input: string)
    requires StartsWith(input, "@")
    ensures DetectInputType(input) != "website"
    ensures DetectInputType(input) != "brand_name"
  {
    assert input[0] == '@';
  }

  /** `_find_brand_website`: the guessed address of a brand's site. */
  function FindBrandWebsite(brandName: string): (url: string)
    ensures StartsWith(url, "https://www.") && EndsWith(url, ".com")
    ensures |url| >= 16
    ensures url[12..|url| - 4] == RemoveAll(Lower(brandName), ' ')
    ensures ' ' !in url[12..|url| - 4]
  {
    var clean := RemoveAll(Lower(brandName), ' ');
    var url := "https://www." + clean + ".com";
    assert url[..12] == "https://www.";
    assert url[|url| - 4..] == ".com";
    assert url[12..|url| - 4] == clean;
    url
  }

  /** The URL `_scrape_website` requests: prefixed with "https://" unless it
      already starts with "http". */
  function NormaliseUrl(url: string): (r: string)
    ensures StartsWith(r, "http")
    ensures StartsWith(url, "http") ==> r == url
    ensures !StartsWith(url, "http") ==> r == "https://" + url
  {
    if StartsWith(url, "http") then url
    else
      var r := "https://" + url;
      assert r[..4] == "http";
      r
  }

  /** Normalising twice changes nothing more, and a guessed website is
      requested as guessed. */
  lemma NormaliseUrlIdempotent(url: string, brandName: string)
    ensures NormaliseUrl(NormaliseUrl(url)) == NormaliseUrl(url)
    ensures NormaliseUrl(FindBrandWebsite(brandName)) == FindBrandWebsite(brandName)
  {
    var w := FindBrandWebsite(brandName);
    assert w[..4] == w[..12][..4] == "http";
  }

  /** What the fetched page yields once parsed: the `<title>` text and the
      meta description when present, the texts of every `<h1>`, `<h2>` and
      `<p>` in document order. */
  datatype Page = Page(
    title: Option<string>,
    description: Option<string>,
    h1: seq<string>,
    h2: seq<string>,
    paragraphs: seq<string>)

  /** The `website_data` dict of a brand record: absent (`{}`), a scraped
      summary, or the `{url, error}` pair of a failed scrape. */
  datatype WebsiteData =
    | NoWebsite
    | Scraped(url: string, title: string, description: string, headlines: seq<string>, textContent: string)
    | ScrapeFailed(url: string, error: string)
  {
    function Url(): string
      requires !NoWebsite?
    {
      url
    }
  }

  function StripAll(texts: seq<string>): (r: seq<string>)
    ensures |r| == |texts|
    ensures forall i :: 0 <= i < |r| ==> r[i] == Strip(texts[i])
  {
    seq(|texts|, i requires 0 <= i < |texts| => Strip(texts[i]))
  }

  const MaxHeadlinesPerTag: nat := 5
  const MaxParagraphs: nat := 10
  const MaxTextContent: nat := 1000

  /** `_scrape_website`: never raises. A failure of the request or of the
      parsing gives `{url, error}`; otherwise at most five stripped headlines
      per heading level, `<h1>` first, and the first 1000 characters of the
      first ten stripped paragraphs joined by spaces. */
  function ScrapeWebsite(url: string, fetch: string -> Result<Page, string>): (r: WebsiteData)
    ensures !r.NoWebsite? && r.Url() == NormaliseUrl(url)
    ensures r.ScrapeFailed? <==> fetch(NormaliseUrl(url)).Err?
    ensures r.ScrapeFailed? ==> r.error == fetch(NormaliseUrl(url)).error
    ensures r.Scraped? ==>
      var page := fetch(NormaliseUrl(url)).value;
      && r.title == page.title.GetOr("")
      && r.description == page.description.GetOr("")
      && |r.headlines| <= 2 * MaxHeadlinesPerTag
      && r.headlines == StripAll(Prefix(page.h1, MaxHeadlinesPerTag)) + StripAll(Prefix(page.h2, MaxHeadlinesPerTag))
      && r.textContent == Prefix(Join(StripAll(Prefix(page.paragraphs, MaxParagraphs)), " "), MaxTextContent)
      && |r.textContent| <= MaxTextContent
  {
    var u := NormaliseUrl(url);
    match fetch(u)
    case Err(e) => ScrapeFailed(u, e)
    case Ok(page) =>
      var headlines := StripAll(Prefix(page.h1, MaxHeadlinesPerTag)) + StripAll(Prefix(page.h2, MaxHeadlinesPerTag));
      var text := Join(StripAll(Prefix(page.paragraphs, MaxParagraphs)), " ");
      Scraped(u, page.title.GetOr(""), page.description.GetOr(""), headlines, Prefix(text, MaxTextContent))
  }

  /** The `social_data` dict of a brand record. */
  datatype SocialData = NoSocial | SocialProfile(platform: string, handle: string, note: string)

  const SocialNote: string := "Social scraping requires API access - using brand name analysis"

  /** The brand record `collect_brand_data` returns: always these seven keys. */
  datatype BrandData = BrandData(
    brandInput: string,
    brandName: string,
    websiteData: WebsiteData,
    socialData: SocialData,
    reviewData: map<string, string>,
    industry: string,
    targetAudience: string)

  const SocialPlatforms: set<string> := {"instagram", "twitter", "linkedin"}

  /** The type `collect_brand_data` acts on: only "auto" is detected. */
  function EffectiveType(input: string, inputType: string): string {
    if inputType == "auto" then DetectInputType(input) else inputType
  }

  /** `collect_brand_data`. A website input is scraped and named by the page
      title (the raw input when the scrape failed); a social platform keeps
      the handle with every '@' removed as the name; anything else, including
      a detected "social" handle, is taken as a brand name and its guessed
      website is scraped. */
  function CollectBrandData(input: string, inputType: string, fetch: string -> Result<Page, string>): (r: BrandData)
    ensures r.brandInput == input
    ensures r.reviewData == map[] && r.industry == "" && r.targetAudience == ""
    ensures var t := EffectiveType(input, inputType);
      && (t == "website" ==>
            && r.websiteData == ScrapeWebsite(input, fetch)
            && r.brandName == (if r.websiteData.Scraped? then r.websiteData.title else input)
            && r.socialData == NoSocial)
      && (t in SocialPlatforms ==>
            && r.socialData == SocialProfile(t, input, SocialNote)
            && r.brandName == RemoveAll(input, '@')
            && r.websiteData == NoWebsite)
      && (t != "website" && t !in SocialPlatforms ==>
            && r.brandName == input
            && r.websiteData == ScrapeWebsite(FindBrandWebsite(input), fetch)
            && r.socialData == NoSocial)
  {
    var t := EffectiveType(input, inputType);
    if t == "website" then
      var wd := ScrapeWebsite(input, fetch);
      BrandData(input, if wd.Scraped? then wd.title else input, wd, NoSocial, map[], "", "")
    else if t in SocialPlatforms then
      BrandData(input, RemoveAll(input, '@'), NoWebsite, SocialProfile(t, input, SocialNote), map[], "", "")
    else
      BrandData(input, input, ScrapeWebsite(FindBrandWebsite(input), fetch), NoSocial, map[], "", "")
  }

  /** An auto-detected handle that names no platform ("social") falls through
      to the brand-name branch: the '@' stays in the name and a website is
      guessed from the handle itself. */
  lemma SocialHandleFallsThrough(input: string, fetch: string -> Result<Page, string>)
    requires DetectInputType(input) == "social"
    ensures var r := CollectBrandData(input, "auto", fetch);
      && r.brandName == input
      && '@' in r.brandName
      && r.socialData == NoSocial
      && r.websiteData.Url() == FindBrandWebsite(input)
  {
    var r := CollectBrandData(input, "auto", fetch);
    assert input[0] == '@';
    NormaliseUrlIdempotent(input, input);
  }

  const ContentLimit: nat := 500

  /** The five context lines for a website summary, in their fixed order. */
  function ContextLines(wd: WebsiteData): (r: seq<string>)
    requires !wd.NoWebsite?
    ensures |r| == 5 && r[0] == "Website: " + wd.Url()
    ensures StartsWith(r[1], "Title: ") && StartsWith(r[2], "Description: ")
    ensures StartsWith(r[3], "Headlines: ") && StartsWith(r[4], "Content: ")
  {
    match wd
    case Scraped(url, title, description, headlines, text) =>
      ["Website: " + url, "Title: " + title, "Description: " + description,
       "Headlines: " + Join(headlines, ", "), "Content: " + Prefix(text, ContentLimit)]
    case ScrapeFailed(url, _) =>
      ["Website: " + url, "Title: ", "Description: ", "Headlines: ", "Content: "]
  }

  /** `_prepare_brand_context`: empty without website data, otherwise the
      five context lines joined by newlines. */
  function PrepareBrandContext(data: BrandData): (r: string)
    ensures r == "" <==> data.websiteData.NoWebsite?
    ensures !data.websiteData.NoWebsite? ==> StartsWith(r, "Website: " + data.websiteData.Url())
  {
    if data.websiteData.NoWebsite? then ""
    else
      var lines := ContextLines(data.websiteData);
      var r := Join(lines, "\n");
      assert r == lines[0] + "\n" + Join(lines[1..], "\n");
      assert r[..|lines[0]|] == lines[0];
      r
  }

  /** When no field holds a newline, the context reads back as exactly five
      lines labelled Website, Title, Description, Headlines and Content, the
      content cut to 500 characters. */
  lemma ContextHasFiveLines(data: BrandData)
    requires !data.websiteData.NoWebsite?
    requires forall i :: 0 <= i < 5 ==> '\n' !in ContextLines(data.websiteData)[i]
    ensures var lines := Split(PrepareBrandContext(data), '\n');
      && |lines| == 5
      && StartsWith(lines[0], "Website: ") && StartsWith(lines[1], "Title: ")
      && StartsWith(lines[2], "Description: ") && StartsWith(lines[3], "Headlines: ")
      && StartsWith(lines[4], "Content: ")
      && |lines[4]| <= |"Content: "| + ContentLimit
      && (data.websiteData.Scraped? ==>
            var Scraped(url, title, description, headlines, text) := data.websiteData;
            lines == ["Website: " + url, "Title: " + title, "Description: " + description,
                      "Headlines: " + Join(headlines, ", "), "Content: " + Prefix(text, ContentLimit)])
      && (data.websiteData.ScrapeFailed? ==>
            lines == ["Website: " + data.websiteData.url, "Title: ", "Description: ", "Headlines: ", "Content: "])
  {
    var parts := ContextLines(data.websiteData);
    SplitJoin(parts, '\n');
    assert Split(PrepareBrandContext(data), '\n') == parts;
    match data.websiteData
    case Scraped(url, title, description, headlines, text) =>
      assert parts[4] == "Content: " + Prefix(text, ContentLimit);
    case ScrapeFailed(_, _) =>
  }

  /** The engine once constructed. */
  datatype MarketGenomeEngine = MarketGenomeEngine(apiKey: string)

  const MissingKeyError: string := "OpenAI API key required for Market Genome analysis"

  /** `MarketGenomeEngine()`: raises `ValueError` unless an API key is set and
      non-empty. */
  function NewEngine(apiKey: Option<string>): (r: Result<MarketGenomeEngine, string>)
    ensures r.Err? <==> apiKey.None? || apiKey.value == ""
    ensures r.Err? ==> r.error == MissingKeyError
    ensures r.Ok? ==> r.value.apiKey == apiKey.value
  {
    if apiKey.Some? && apiKey.value != "" then Ok(MarketGenomeEngine(apiKey.value))
    else Err(MissingKeyError)
  }
}
