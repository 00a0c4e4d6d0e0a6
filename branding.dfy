/** The streamer branding (src/config/branding.ts): the configuration the
    site is built with, chosen from three environment variables. A streamer
    code of `butcher` or `butcherx`, in any letter case, selects the fixed
    ButcherX configuration; anything else gives the default WAGER look with
    the given names passed through. */
module Branding {
  import opened Wrappers
  import JsText

  datatype Theme = Theme(primaryColor: string, secondaryColor: string, accentColor: string,
                         backgroundGradient: seq<string>)

  datatype GameAssets = GameAssets(provider: string, games: seq<string>, backgroundImages: Option<seq<string>>)

  datatype CustomText = CustomText(heroTitle: string, heroDescription: string, referralCode: string)

  datatype BrandingConfig = BrandingConfig(streamerName: string, streamerCode: string, domain: string,
                                           theme: Theme, gameAssets: GameAssets, customText: CustomText)

  /** `value || fallback` for an environment variable. */
  function OrDefault(value: Option<string>, fallback: string): (r: string)
    ensures value.Some? && value.value != "" ==> r == value.value
    ensures value.None? || value.value == "" ==> r == fallback
  {
    if value.Some? && value.value != "" then value.value else fallback
  }

  /** `code.toLowerCase() === 'butcher' || code.toLowerCase() === 'butcherx'`. */
  predicate IsButcher(code: string)
    ensures IsButcher(code) ==> |code| == 7 || |code| == 8
  {
    JsText.AsciiLower(code) == "butcher" || JsText.AsciiLower(code) == "butcherx"
  }

  const ButcherX: BrandingConfig := BrandingConfig(
    "ButcherX", "butcher", "BTXRewards.com",
    Theme("#8B0000", "#DC143C", "#FF6347", ["#1a0000", "#2d0000", "#1a0000"]),
    GameAssets("No Limit City", ["NO limit", "SERIAL", "DEAD DEAD DEADER", "Mental 2"], Some([
      "https://cdn-cms.wager.com/assets/images/games/vertexst8/nolimit-city/nlc-mental-2.jpg",
      "https://cdn-cms.wager.com/assets/images/games/vertexst8/nolimit-city/nlc-dead-dead-or-deader.jpg",
      "https://cdn-cms.wager.com/assets/images/games/vertexst8/nolimit-city/nlc-serial.jpg"])),
    CustomText("ButcherX Leaderboard", "Sign up using referral code BTX and start wagering to compete for prizes",
               "BTX"))

  /** The default configuration around the given names. */
  function DefaultConfig(code: string, name: string, domain: string): BrandingConfig {
    BrandingConfig(
      name, code, domain,
      Theme("#85C7FF", "#526197", "#60A6FF", ["#0a0e1a", "#0d1220", "#0a0e1a"]),
      GameAssets("Default", [], None),
      CustomText(name + " Leaderboard",
                 "Sign up using referral code " + name + " and start wagering to compete for prizes", name))
  }

  /** `getBrandingConfig()` as a function of VITE_STREAMER_CODE,
      VITE_STREAMER_NAME and VITE_STREAMER_DOMAIN (`None` when unset). */
  function GetBrandingConfig(codeVar: Option<string>, nameVar: Option<string>, domainVar: Option<string>)
    : (c: BrandingConfig)
    ensures IsButcher(OrDefault(codeVar, "default")) ==> c == ButcherX
    ensures !IsButcher(OrDefault(codeVar, "default")) ==>
              && c.streamerCode == OrDefault(codeVar, "default")
              && c.streamerName == OrDefault(nameVar, "WAGER")
              && c.domain == OrDefault(domainVar, "wager.com")
              && c.customText.heroTitle == c.streamerName + " Leaderboard"
              && c.customText.referralCode == c.streamerName
              && c.gameAssets.games == []
  {
    var code := OrDefault(codeVar, "default");
    var name := OrDefault(nameVar, "WAGER");
    var domain := OrDefault(domainVar, "wager.com");
    if IsButcher(code) then ButcherX else DefaultConfig(code, name, domain)
  }

  function Upper(c: char): char {
    if 'a' <= c <= 'z' then (c as int - 32) as char else c
  }

  /** `code` spells `word` with any mix of upper- and lower-case letters. */
  predicate CaseVariant(code: string, word: string) {
    |code| == |word| && forall i :: 0 <= i < |code| ==> code[i] == word[i] || code[i] == Upper(word[i])
  }

  predicate AllLowerAscii(word: string) {
    forall i :: 0 <= i < |word| ==> 'a' <= word[i] <= 'z'
  }

  /** Lower-casing gives a lower-case word exactly for its case variants. */
  lemma {:induction false} AsciiLowerMatches(code: string, word: string)
    requires AllLowerAscii(word)
    ensures JsText.AsciiLower(code) == word <==> CaseVariant(code, word)
  {
    if code != [] && word != [] {
      AsciiLowerMatches(code[1..], word[1..]);
      var low := JsText.AsciiLower(code);
      assert low == [low[0]] + JsText.AsciiLower(code[1..]);
      if CaseVariant(code, word) {
        assert CaseVariant(code[1..], word[1..]) by {
          forall i | 0 <= i < |code[1..]| ensures code[1..][i] == word[1..][i] || code[1..][i] == Upper(word[1..][i]) {
            assert code[1..][i] == code[i + 1] && word[1..][i] == word[i + 1];
          }
        }
        assert low == word;
      }
      if low == word {
        assert word == [word[0]] + word[1..];
        forall i | 0 <= i < |code| ensures code[i] == word[i] || code[i] == Upper(word[i]) {
          if i > 0 {
            assert code[i] == code[1..][i - 1] && word[i] == word[1..][i - 1];
          }
        }
      }
    } else if code != [] {
      assert JsText.AsciiLower(code) != [];
    }
  }

  /** The ButcherX configuration is chosen exactly for the case variants of
      `butcher` and `butcherx`. */
  lemma ButcherSelection(code: string)
    ensures IsButcher(code) <==> CaseVariant(code, "butcher") || CaseVariant(code, "butcherx")
  {
    AsciiLowerMatches(code, "butcher");
    AsciiLowerMatches(code, "butcherx");
  }

  /** With nothing set the site is the default WAGER one. */
  lemma UnsetDefaults(codeVar: Option<string>, nameVar: Option<string>, domainVar: Option<string>)
    requires codeVar.None? && nameVar.None? && domainVar.None?
    ensures var c := GetBrandingConfig(codeVar, nameVar, domainVar);
            c.streamerCode == "default" && c.streamerName == "WAGER" && c.domain == "wager.com"
            && c.customText.heroTitle == "WAGER Leaderboard"
  {
    DefaultIsNotButcher();
    var c := GetBrandingConfig(codeVar, nameVar, domainVar);
    assert c.streamerName == "WAGER";
    DefaultHeroTitle(codeVar, nameVar, domainVar);
  }

  /** Without a streamer name, a default-branded site is titled
      "WAGER Leaderboard". */
  lemma DefaultHeroTitle(codeVar: Option<string>, nameVar: Option<string>, domainVar: Option<string>)
    requires !IsButcher(OrDefault(codeVar, "default"))
    requires nameVar.None? || nameVar.value == ""
    ensures GetBrandingConfig(codeVar, nameVar, domainVar).customText.heroTitle == "WAGER Leaderboard"
  {
    var c := GetBrandingConfig(codeVar, nameVar, domainVar);
    assert c.streamerName == "WAGER";
    WagerTitleText();
  }

  lemma WagerTitleText()
    ensures "WAGER" + " Leaderboard" == "WAGER Leaderboard"
  {
  }

  /** An empty streamer code counts as unset. */
  lemma EmptyCodeIsUnset(nameVar: Option<string>, domainVar: Option<string>)
    ensures GetBrandingConfig(Some(""), nameVar, domainVar) == GetBrandingConfig(None, nameVar, domainVar)
  {
  }

  lemma DefaultIsNotButcher()
    ensures !IsButcher("default")
  {
    ButcherSelection("default");
    assert !CaseVariant("default", "butcher") by {
      assert "default"[0] == 'd' && "butcher"[0] == 'b';
    }
  }

  /** The ButcherX configuration ignores the name and domain variables and
      fixes its referral code and three-colour background. */
  lemma ButcherXFixed(code: string, nameVar: Option<string>, domainVar: Option<string>)
    requires IsButcher(code)
    ensures var c := GetBrandingConfig(Some(code), nameVar, domainVar);
            c.streamerCode == "butcher" && c.streamerName == "ButcherX" && c.domain == "BTXRewards.com"
            && c.customText.referralCode == "BTX" && |c.theme.backgroundGradient| == 3
  {
  }
}
