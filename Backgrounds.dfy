/**
 * The page-background rule: an ordered chain of case-sensitive substring
 * tests on a weather-condition text, choosing one of six images, and the
 * page-wide style that displays the chosen image.
 */
module Backgrounds {
  import opened Text

  /** The six images: sunny/clear, cloudy, rain, snow, mist, and the default scenic one. */
  datatype Background = Beach | Clouds | Rain | Snowfall | Mist | Scenic

  /** The address of each image. */
  function ImageAddress(b: Background): string {
    match b
    case Beach => "https://cdn2.hubspot.net/hubfs/2936356/maxresdefault.jpg"
    case Clouds => "https://www.evrensel.net/upload/dosya/192762.jpg"
    case Rain => "https://images.pexels.com/photos/125510/pexels-photo-125510.jpeg?cs=srgb&dl=pexels-hikaique-125510.jpg&fm=jpg"
    case Snowfall => "https://static01.nyt.com/images/2019/11/26/us/26holiday-weather01sub/26holiday-weather01sub-superJumbo.jpg"
    case Mist => "https://cff2.earth.com/uploads/2018/11/13053559/what-is-mist.jpg"
    case Scenic => "https://eg5c9vcv2j9.exactdn.com/wp-content/uploads/2023/07/AdobeStock_440069937-scaled.jpeg?lossy=1&ssl=1"
  }

  /** The CSS `background-image` value written for each choice: the image's address wrapped in `url(...)`. */
  function ImageUrl(b: Background): (u: string)
    ensures |u| >= 5 && u[..4] == "url(" && u[|u| - 1] == ')'
  {
    "url(" + ImageAddress(b) + ")"
  }

  /** The four properties of `document.body.style` that the rule writes. */
  datatype BodyStyle = BodyStyle(
    backgroundImage: string,
    backgroundAttachment: string,
    backgroundSize: string,
    backgroundPosition: string)

  /** The page style for one image: fixed, covering and centred. */
  function StyleFor(b: Background): (st: BodyStyle)
    ensures st.backgroundImage == ImageUrl(b)
    ensures st.backgroundAttachment == "fixed" && st.backgroundSize == "cover" && st.backgroundPosition == "center"
  {
    BodyStyle(ImageUrl(b), "fixed", "cover", "center")
  }

  /** One link of the chain: a group of keywords and the image it selects. */
  datatype Rule = Rule(keywords: seq<string>, image: Background)

  /** The chain, earliest rule first. */
  const Rules: seq<Rule> := [
    Rule(["Sunny", "Clear"], Beach),
    Rule(["Partly Cloudy", "Overcast", "Cloudy"], Clouds),
    Rule(["Patchy rain nearby", "Light rain", "Moderate rain", "Heavy rain"], Rain),
    Rule(["Snow"], Snowfall),
    Rule(["Mist"], Mist)
  ]

  /** Some keyword of the rule occurs in the condition. */
  ghost predicate Fires(r: Rule, condition: string) {
    exists k :: 0 <= k < |r.keywords| && Contains(condition, r.keywords[k])
  }

  /** Reference semantics of an ordered rule list: the first rule that fires decides, else the default. */
  ghost function FirstMatch(rules: seq<Rule>, condition: string): Background {
    if rules == [] then Scenic
    else if Fires(rules[0], condition) then rules[0].image
    else FirstMatch(rules[1..], condition)
  }

  /** Rule `k` is the earliest one that fires. */
  ghost predicate EarliestFiring(rules: seq<Rule>, condition: string, k: int) {
    0 <= k < |rules| && Fires(rules[k], condition) &&
    forall j :: 0 <= j < k ==> !Fires(rules[j], condition)
  }

  /** First match, stated without recursion: the earliest firing rule wins; with none, the default. */
  lemma {:induction false} FirstMatchIsEarliest(rules: seq<Rule>, condition: string)
    ensures forall k :: EarliestFiring(rules, condition, k) ==> FirstMatch(rules, condition) == rules[k].image
    ensures (forall k :: 0 <= k < |rules| ==> !Fires(rules[k], condition)) ==> FirstMatch(rules, condition) == Scenic
  {
    if rules != [] {
      FirstMatchIsEarliest(rules[1..], condition);
      forall k | EarliestFiring(rules, condition, k)
        ensures FirstMatch(rules, condition) == rules[k].image
      {
        if k > 0 {
          assert EarliestFiring(rules[1..], condition, k - 1);
        }
      }
      if forall k :: 0 <= k < |rules| ==> !Fires(rules[k], condition) {
        assert forall k :: 0 <= k < |rules[1..]| ==> !Fires(rules[1..][k], condition) by {
          forall k | 0 <= k < |rules[1..]|
            ensures !Fires(rules[1..][k], condition)
          {
            assert rules[1..][k] == rules[k + 1];
          }
        }
      }
    }
  }

  /** What it means for each rule of the table to fire, keyword by keyword. */
  lemma FiresUnfold(c: string)
    ensures Fires(Rules[0], c) <==> Contains(c, "Sunny") || Contains(c, "Clear")
    ensures Fires(Rules[1], c) <==> Contains(c, "Partly Cloudy") || Contains(c, "Overcast") || Contains(c, "Cloudy")
    ensures Fires(Rules[2], c) <==> Contains(c, "Patchy rain nearby") || Contains(c, "Light rain")
                                    || Contains(c, "Moderate rain") || Contains(c, "Heavy rain")
    ensures Fires(Rules[3], c) <==> Contains(c, "Snow")
    ensures Fires(Rules[4], c) <==> Contains(c, "Mist")
  {
    var r := Rules;
    assert r[0].keywords[0] == "Sunny" && r[0].keywords[1] == "Clear";
    assert r[1].keywords[0] == "Partly Cloudy" && r[1].keywords[1] == "Overcast" && r[1].keywords[2] == "Cloudy";
    assert r[2].keywords[0] == "Patchy rain nearby" && r[2].keywords[1] == "Light rain";
    assert r[2].keywords[2] == "Moderate rain" && r[2].keywords[3] == "Heavy rain";
    assert r[3].keywords[0] == "Snow";
    assert r[4].keywords[0] == "Mist";
  }

  /** The rule table unfolded into the chain it denotes, on the reference substring test. */
  lemma RulesUnfold(c: string)
    ensures FirstMatch(Rules, c) ==
      if Fires(Rules[0], c) then Beach
      else if Fires(Rules[1], c) then Clouds
      else if Fires(Rules[2], c) then Rain
      else if Fires(Rules[3], c) then Snowfall
      else if Fires(Rules[4], c) then Mist
      else Scenic
  {
    var r := Rules;
    assert r[1..][0] == r[1] && r[2..][0] == r[2] && r[3..][0] == r[3] && r[4..][0] == r[4];
    assert r[1..][1..] == r[2..] && r[2..][1..] == r[3..] && r[3..][1..] == r[4..] && r[4..][1..] == [];
    assert FirstMatch(r[4..], c) == if Fires(r[4], c) then Mist else Scenic;
    assert FirstMatch(r[3..], c) == if Fires(r[3], c) then Snowfall else FirstMatch(r[4..], c);
    assert FirstMatch(r[2..], c) == if Fires(r[2], c) then Rain else FirstMatch(r[3..], c);
    assert FirstMatch(r[1..], c) == if Fires(r[1], c) then Clouds else FirstMatch(r[2..], c);
  }

  /** `setWeatherBackground`'s if/else-if chain of `includes` tests. */
  function SelectBackground(condition: string): (b: Background)
    ensures b == FirstMatch(Rules, condition)
  {
    RulesUnfold(condition);
    FiresUnfold(condition);
    if Includes(condition, "Sunny") || Includes(condition, "Clear") then
      Beach
    else if Includes(condition, "Partly Cloudy") || Includes(condition, "Overcast") || Includes(condition, "Cloudy") then
      Clouds
    else if Includes(condition, "Patchy rain nearby") || Includes(condition, "Light rain")
         || Includes(condition, "Moderate rain") || Includes(condition, "Heavy rain") then
      Rain
    else if Includes(condition, "Snow") then
      Snowfall
    else if Includes(condition, "Mist") then
      Mist
    else
      Scenic
  }

  /** In general, the earliest rule of the chain whose keywords occur decides the image. */
  lemma EarliestRuleWins(condition: string, k: int)
    requires EarliestFiring(Rules, condition, k)
    ensures SelectBackground(condition) == Rules[k].image
  {
    FirstMatchIsEarliest(Rules, condition);
  }

  /** "Sunny" or "Clear" anywhere gives the beach image, whatever cloud, rain, snow or mist words follow. */
  lemma SunnyOrClearWins(condition: string)
    requires Contains(condition, "Sunny") || Contains(condition, "Clear")
    ensures SelectBackground(condition) == Beach
  {
    RulesUnfold(condition);
    FiresUnfold(condition);
  }

  /** "Snow" gives the snow image exactly when no sunny, cloud or rain keyword occurs. */
  lemma SnowRule(condition: string)
    requires Contains(condition, "Snow")
    ensures SelectBackground(condition) == Snowfall <==>
      !Fires(Rules[0], condition) && !Fires(Rules[1], condition) && !Fires(Rules[2], condition)
  {
    RulesUnfold(condition);
    FiresUnfold(condition);
  }

  /** The mist image is chosen exactly when "Mist" occurs and no earlier group matches. */
  lemma MistOnlyAfterEverythingElse(condition: string)
    ensures SelectBackground(condition) == Mist <==>
      Contains(condition, "Mist") && forall k :: 0 <= k < 4 ==> !Fires(Rules[k], condition)
  {
    RulesUnfold(condition);
    FiresUnfold(condition);
  }

  /** The default image is chosen exactly when no keyword of any rule occurs. */
  lemma ScenicIffNoKeyword(condition: string)
    ensures SelectBackground(condition) == Scenic <==>
      forall k, j :: 0 <= k < |Rules| && 0 <= j < |Rules[k].keywords| ==> !Contains(condition, Rules[k].keywords[j])
  {
    RulesUnfold(condition);
    FiresUnfold(condition);
    assert forall k :: 0 <= k < |Rules| ==> Rules[k].image != Scenic;
  }

  /**
   * Every keyword starts with one of the capitals S, C, P, O, L, M, H, so a
   * condition without those characters gets the default image.
   */
  lemma NoKeywordInitialIsScenic(condition: string)
    requires forall i :: 0 <= i < |condition| ==> condition[i] !in "SCPOLMH"
    ensures SelectBackground(condition) == Scenic
  {
    var initials := "SCPOLMH";
    assert forall ch :: ch in initials ==> ch !in condition;
    FirstCharAbsent(condition, "Sunny");
    FirstCharAbsent(condition, "Clear");
    FirstCharAbsent(condition, "Partly Cloudy");
    FirstCharAbsent(condition, "Overcast");
    FirstCharAbsent(condition, "Cloudy");
    FirstCharAbsent(condition, "Patchy rain nearby");
    FirstCharAbsent(condition, "Light rain");
    FirstCharAbsent(condition, "Moderate rain");
    FirstCharAbsent(condition, "Heavy rain");
    FirstCharAbsent(condition, "Snow");
    FirstCharAbsent(condition, "Mist");
    RulesUnfold(condition);
    FiresUnfold(condition);
  }

  /** At mount the rule runs on the empty default argument and picks the default image. */
  lemma EmptyConditionIsScenic()
    ensures SelectBackground("") == Scenic
  {
    NoKeywordInitialIsScenic("");
  }

  /** Matching is case-sensitive: a lower-cased condition never matches any rule. */
  lemma LowerCasedConditionIsScenic(condition: string)
    ensures SelectBackground(ToLowerAscii(condition)) == Scenic
  {
    var lowered := ToLowerAscii(condition);
    forall i | 0 <= i < |lowered|
      ensures lowered[i] !in "SCPOLMH"
    {
      assert !IsAsciiUpper(lowered[i]);
    }
    NoKeywordInitialIsScenic(lowered);
  }

  /** "cloudy" in lower case does not trigger the cloud rule. */
  lemma LowerCaseCloudyIsScenic()
    ensures SelectBackground("cloudy") == Scenic
  {
    NoKeywordInitialIsScenic("cloudy");
  }

  /** The "Partly Cloudy" test is subsumed by the later "Cloudy" test of the same group. */
  lemma PartlyCloudyImpliesCloudy(condition: string)
    requires Contains(condition, "Partly Cloudy")
    ensures Contains(condition, "Cloudy")
  {
    assert "Partly Cloudy"[7..13] == "Cloudy";
    assert OccursAt("Partly Cloudy", "Cloudy", 7);
    ContainsTransitive(condition, "Partly Cloudy", "Cloudy");
  }
}
