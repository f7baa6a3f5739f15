/**
 * The brand-logo lookup of the dashboard: a fixed table from brand names to web domains,
 * a favicon URL built from the matched (or guessed) domain, a neutral avatar for names that
 * carry no brand, and a lettered avatar the image falls back to when the favicon fails.
 */
module Logo {
  import opened Wrappers
  import opened Strings

  /** A table key or domain: never the empty string. */
  type Word = s: string | |s| > 0 witness "a"

  /** One table entry: a brand name and the domain its favicon is fetched from. */
  datatype Brand = Brand(key: Word, domain: Word)

  // The table, one constant per group of brands.
  const FoodAndDining: seq<Brand> := [
    Brand("Swiggy", "swiggy.com"),
    Brand("Zomato", "zomato.com"),
    Brand("Dominos", "dominos.co.in"),
    Brand("Mcdonald", "mcdonalds.com"),
    Brand("Kfc", "kfc.com"),
    Brand("Pizzahut", "pizzahut.co.in"),
    Brand("Subway", "subway.com")
  ]
  const Ecommerce: seq<Brand> := [
    Brand("Amazon", "amazon.in"),
    Brand("Flipkart", "flipkart.com"),
    Brand("Meesho", "meesho.com"),
    Brand("Myntra", "myntra.com"),
    Brand("Ajio", "ajio.com"),
    Brand("Shopsy", "shopsy.in")
  ]
  const Fashion: seq<Brand> := [
    Brand("Snitch", "snitch.com"),
    Brand("Beyoung", "beyoung.in"),
    Brand("Bewakoof", "bewakoof.com"),
    Brand("Urbanic", "urbanic.com")
  ]
  const BeautyAndCare: seq<Brand> := [
    Brand("Nykaa", "nykaa.com"),
    Brand("Purplle", "purplle.com"),
    Brand("Bellavitaorganic", "bellavitaorganic.com"),
    Brand("Aqualogica", "aqualogica.in"),
    Brand("Bombayshavingcompany", "bombayshavingcompany.com"),
    Brand("Mamaearth", "mamaearth.in")
  ]
  const Technology: seq<Brand> := [
    Brand("Lenovo", "lenovo.com"),
    Brand("Apple", "apple.com"),
    Brand("Samsung", "samsung.com"),
    Brand("Dell", "dell.com"),
    Brand("HP", "hp.com"),
    Brand("Asus", "asus.com")
  ]
  const Entertainment: seq<Brand> := [
    Brand("Netflix", "netflix.com"),
    Brand("Primevideo", "primevideo.com"),
    Brand("Hotstar", "hotstar.com"),
    Brand("Spotify", "spotify.com"),
    Brand("Youtube", "youtube.com"),
    Brand("Zee5", "zee5.com")
  ]
  const Travel: seq<Brand> := [
    Brand("Uber", "uber.com"),
    Brand("Ola", "olacabs.com"),
    Brand("Makemytrip", "makemytrip.com"),
    Brand("Goibibo", "goibibo.com"),
    Brand("Cleartrip", "cleartrip.com"),
    Brand("Irctc", "irctc.co.in")
  ]
  const Utilities: seq<Brand> := [
    Brand("Airtel", "airtel.in"),
    Brand("Jio", "jio.com"),
    Brand("Vi", "myvi.in"),
    Brand("Paytm", "paytm.com"),
    Brand("Phonepe", "phonepe.com"),
    Brand("Gpay", "pay.google.com")
  ]
  const Professional: seq<Brand> := [
    Brand("Linkedin", "linkedin.com"),
    Brand("Indeed", "indeed.com"),
    Brand("Naukri", "naukri.com")
  ]
  const Logistics: seq<Brand> := [
    Brand("Pickrr", "pickrr.com"),
    Brand("Ithinklogistics", "ithinklogistics.com"),
    Brand("Delhivery", "delhivery.com"),
    Brand("Bluedart", "bluedart.com")
  ]
  const Groceries: seq<Brand> := [
    Brand("Blinkit", "blinkit.com"),
    Brand("Zepto", "zepto.com"),
    Brand("Instamart", "swiggy.com"),
    Brand("Bigbasket", "bigbasket.com"),
    Brand("Dunzo", "dunzo.com")
  ]
  const Finance: seq<Brand> := [
    Brand("Cred", "cred.club"),
    Brand("Mobikwik", "mobikwik.com"),
    Brand("Freecharge", "freecharge.in")
  ]
  const Misc: seq<Brand> := [
    Brand("Bookmyshow", "bookmyshow.com"),
    Brand("Licious", "licious.in"),
    Brand("Freshmenu", "freshmenu.com")
  ]

  /** The known brands, in the table's own order (the order in which the lookup scans them). */
  const BrandDomains: seq<Brand> :=
    FoodAndDining + Ecommerce + Fashion + BeautyAndCare + Technology + Entertainment + Travel + Utilities + Professional + Logistics + Groceries + Finance + Misc

  const Https := "https://"
  const FaviconHost := "www.google.com"
  const AvatarApi := Https + AvatarHost + "/api/?name="
  const NeutralAvatar := AvatarApi + "?&background=gray&color=fff&size=128"
  const FaviconPrefix := Https + FaviconHost + "/s2/favicons?domain="
  const FaviconSuffix := "&sz=256"
  const GuessSuffix := ".com"
  const LetteredSuffix := "&background=667eea&color=fff&size=128&bold=true"

  /** Names for which no lookup is made: empty, or one of the two placeholder names. */
  predicate IsPlaceholder(name: string) {
    name == "" || name == Unknown || name == ConnectionFailed
  }

  /** Whitespace runs removed, then lower-cased. */
  function Normalise(name: string): string {
    ToLower(StripWhitespace(name))
  }

  /** Some entry of `table` has a key whose lower-case form is `n`. */
  predicate Listed(table: seq<Brand>, n: string) {
    exists i :: 0 <= i < |table| && ToLower(table[i].key) == n
  }

  /** The domain of the first entry whose lower-cased key equals `n`. */
  function FindDomain(table: seq<Brand>, n: string): (r: Option<string>)
    ensures r.Some? <==> Listed(table, n)
    ensures r.Some? ==> exists i :: 0 <= i < |table| && ToLower(table[i].key) == n && r.value == table[i].domain
                                    && forall j :: 0 <= j < i ==> ToLower(table[j].key) != n
  {
    if table == [] then None
    else if ToLower(table[0].key) == n then Some(table[0].domain)
    else
      var r := FindDomain(table[1..], n);
      assert Listed(table, n) ==> Listed(table[1..], n) by {
        if Listed(table, n) {
          var i :| 0 <= i < |table| && ToLower(table[i].key) == n;
          assert i > 0 && ToLower(table[1..][i - 1].key) == n;
        }
      }
      assert r.Some? ==> Listed(table, n) by {
        if r.Some? {
          var i :| 0 <= i < |table[1..]| && ToLower(table[1..][i].key) == n;
          assert ToLower(table[i + 1].key) == n;
        }
      }
      if r.Some? then
        var i :| 0 <= i < |table[1..]| && ToLower(table[1..][i].key) == n && r.value == table[1..][i].domain
                 && forall j :: 0 <= j < i ==> ToLower(table[1..][j].key) != n;
        assert ToLower(table[i + 1].key) == n && r.value == table[i + 1].domain;
        assert forall j :: 0 <= j < i + 1 ==> ToLower(table[j].key) != n by {
          forall j | 0 <= j < i + 1
            ensures ToLower(table[j].key) != n
          {
            if j > 0 {
              assert table[j] == table[1..][j - 1];
            }
          }
        }
        r
      else
        r
  }

  function Favicon(domain: string): string {
    FaviconPrefix + domain + FaviconSuffix
  }

  /** The domain tried when the brand is not in the table. */
  function GuessedDomain(name: string): string {
    StripWhitespace(ToLower(name)) + GuessSuffix
  }

  /** The logo URL of `name`. */
  function GetBrandLogo(name: string): string {
    if IsPlaceholder(name) then NeutralAvatar
    else
      var domain := FindDomain(BrandDomains, Normalise(name));
      if domain.Some? && domain.value != "" then Favicon(domain.value)
      else Favicon(GuessedDomain(name))
  }

  /** The image source and the source it switches to when the first fails to load. */
  datatype LogoSources = LogoSources(src: string, fallbackSrc: string)

  /** The sources an image gets for `name`. */
  function GetBrandLogoWithFallback(name: string): (r: LogoSources)
    ensures r.src == GetBrandLogo(name)
    ensures r.fallbackSrc == AvatarApi + EncodeUriComponent(name) + LetteredSuffix
  {
    LogoSources(GetBrandLogo(name), AvatarApi + EncodeUriComponent(name) + LetteredSuffix)
  }

  /**
   * A placeholder name gets the neutral avatar; any other name gets a favicon URL, whose
   * domain is the table's domain for the first matching key, or else the guessed domain.
   */
  lemma GetBrandLogoCases(name: string)
    ensures IsPlaceholder(name) ==> GetBrandLogo(name) == NeutralAvatar
    ensures !IsPlaceholder(name) && Listed(BrandDomains, Normalise(name)) ==>
      exists i :: 0 <= i < |BrandDomains| && ToLower(BrandDomains[i].key) == Normalise(name)
                  && GetBrandLogo(name) == Favicon(BrandDomains[i].domain)
    ensures !IsPlaceholder(name) && !Listed(BrandDomains, Normalise(name)) ==>
      GetBrandLogo(name) == Favicon(Normalise(name) + GuessSuffix)
  {
    StripLowerCommute(name);
  }

  /** Names that normalise alike and are not placeholders get the same logo. */
  lemma NormalisedNamesShareLogo(a: string, b: string)
    requires !IsPlaceholder(a) && !IsPlaceholder(b) && Normalise(a) == Normalise(b)
    ensures GetBrandLogo(a) == GetBrandLogo(b)
  {
    StripLowerCommute(a);
    StripLowerCommute(b);
  }

  /** Normalising twice changes nothing more than normalising once. */
  lemma NormaliseIdempotent(name: string)
    ensures Normalise(Normalise(name)) == Normalise(name)
  {
    var t := Normalise(name);
    StripLowerCommute(name);
    StripLowerCommute(t);
    StripLowerIdempotent(name);
  }

  /** A name and its normalised form get the same logo, unless one of them is a placeholder. */
  lemma NormalisedNameKeepsLogo(name: string)
    requires !IsPlaceholder(name) && !IsPlaceholder(Normalise(name))
    ensures GetBrandLogo(Normalise(name)) == GetBrandLogo(name)
  {
    NormaliseIdempotent(name);
    NormalisedNamesShareLogo(Normalise(name), name);
  }

  /**
   * Every logo URL is either an avatar of the avatar service (for placeholders) or a favicon
   * URL of the favicon service (for every other name).
   */
  lemma LogoPrefix(name: string)
    ensures IsPlaceholder(name) ==> |AvatarApi| <= |GetBrandLogo(name)| && GetBrandLogo(name)[..|AvatarApi|] == AvatarApi
    ensures !IsPlaceholder(name) ==> |FaviconPrefix| <= |GetBrandLogo(name)| && GetBrandLogo(name)[..|FaviconPrefix|] == FaviconPrefix
  {
    if IsPlaceholder(name) {
      assert NeutralAvatar[..|AvatarApi|] == AvatarApi;
    } else {
      var domain := FindDomain(BrandDomains, Normalise(name));
      var d := if domain.Some? && domain.value != "" then domain.value else GuessedDomain(name);
      assert GetBrandLogo(name) == Favicon(d);
      assert Favicon(d)[..|FaviconPrefix|] == FaviconPrefix;
    }
  }

  /** A favicon URL is never the neutral avatar. */
  lemma FaviconIsNotNeutral(domain: string)
    ensures Favicon(domain) != NeutralAvatar
  {
    var k := |Https|;
    assert (FaviconPrefix + domain + FaviconSuffix)[k] == FaviconHost[0];
    assert NeutralAvatar[k] == AvatarHost[0];
  }

  /** A name of one space is no placeholder, finds no key, and guesses the bare `.com`. */
  lemma BlankNameLogo()
    ensures !IsPlaceholder(" ") && GetBrandLogo(" ") == Favicon(GuessSuffix)
  {
    var blank := " ";
    assert |blank| != 0 && |blank| != |Unknown| && |blank| != |ConnectionFailed|;
    assert StripWhitespace(blank) == "" by {
      assert IsJsWhitespace(blank[0]) && blank[1..] == "";
    }
    assert ToLower(blank) == blank by {
      assert |ToLower(blank)| == 1 && ToLower(blank)[0] == LowerChar(blank[0]) == blank[0];
    }
    assert Normalise(blank) == "";
    assert !Listed(BrandDomains, "") by {
      forall i | 0 <= i < |BrandDomains|
        ensures ToLower(BrandDomains[i].key) != ""
      {
        assert |ToLower(BrandDomains[i].key)| == |BrandDomains[i].key| > 0;
      }
    }
    assert GuessedDomain(blank) == GuessSuffix;
  }

  /**
   * The placeholder test looks at the name before it is normalised: the empty name gets the
   * neutral avatar, while a name of whitespace only, which normalises to the same empty string,
   * is looked up and gets the favicon URL of the bare ".com".
   */
  lemma PlaceholderTestIsExact()
    ensures Normalise("") == Normalise(" ")
    ensures GetBrandLogo("") == NeutralAvatar
    ensures GetBrandLogo("") != GetBrandLogo(" ")
  {
    BlankNameLogo();
    FaviconIsNotNeutral(GuessSuffix);
  }

  /** The table is not injective: Swiggy and its grocery service Instamart share one domain. */
  lemma SharedDomain()
    ensures exists i, j :: 0 <= i < j < |BrandDomains| && BrandDomains[i].key != BrandDomains[j].key
                           && BrandDomains[i].domain == BrandDomains[j].domain
  {
    var before := FoodAndDining + Ecommerce + Fashion + BeautyAndCare + Technology + Entertainment + Travel
                  + Utilities + Professional + Logistics;
    assert BrandDomains == before + Groceries + Finance + Misc;
    var j := |before| + 2;
    assert BrandDomains[0] == FoodAndDining[0];
    assert BrandDomains[j] == Groceries[2];
    assert |BrandDomains[0].key| != |BrandDomains[j].key|;
  }
}
