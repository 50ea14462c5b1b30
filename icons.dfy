/**
 * The icon choice for scenarios and devices (constants.tsx), as a classification into an
 * enumeration of icon tags: a lookup table of scenario icon names, and two ordered lists
 * of keyword rules matched case-insensitively, the first matching rule winning.
 */
module Icons {
  import opened Types
  import opened Text

  datatype Icon =
    | Sun | Moon | Zap | Play | Home | Coffee | PartyPopper | Thermometer | Lightbulb | Music
    | Tv | Lock | Unlock | Power | Fan | ToggleLeft | Plug | AlarmSmoke | AirVent | Sunset | Speaker

  const SCENARIO_ICON_MAP: map<string, Icon> := map[
    "icon_morning" := Sun,
    "icon_sun" := Sun,
    "icon_night" := Moon,
    "icon_moon" := Moon,
    "icon_party" := PartyPopper,
    "icon_alarm" := Zap,
    "icon_cleaning" := Home,
    "icon_coffee" := Coffee,
    "icon_temp" := Thermometer,
    "icon_fan" := Fan,
    "icon_airvent" := AirVent,
    "icon_sunset" := Sunset,
    "default" := Play]

  /** A rule: any of its keywords occurring in the lower-cased text selects its icon. */
  datatype Rule = Rule(keywords: seq<string>, icon: Icon)

  predicate Matches(text: string, rule: Rule) {
    exists k :: k in rule.keywords && Contains(text, k)
  }

  const SCENARIO_RULES: seq<Rule> := [
    Rule(["свет", "light"], Lightbulb),
    Rule(["музык", "music"], Music),
    Rule(["тв", "tv", "кино"], Tv),
    Rule(["утро", "morning"], Sun),
    Rule(["ноч", "night", "спать"], Moon),
    Rule(["вечер"], Sunset),
    Rule(["колонк", "speaker"], Speaker),
    Rule(["гост", "тусов", "вечерин", "party"], PartyPopper),
    Rule(["выкл", "off"], Power),
    Rule(["откр", "open"], Unlock),
    Rule(["закр", "close"], Lock),
    Rule(["вентилят", "fan"], Fan),
    Rule(["кондиц", "condit"], AirVent)]

  const DEVICE_RULES: seq<Rule> := [
    Rule(["light"], Lightbulb),
    Rule(["socket"], Plug),
    Rule(["switch"], ToggleLeft),
    Rule(["fan", "air"], Fan),
    Rule(["tv", "media"], Tv),
    Rule(["kettle", "coffee"], Coffee),
    Rule(["sensor"], AlarmSmoke),
    Rule(["thermostat"], AirVent),
    Rule(["speaker"], Speaker)]

  /** The position of the first rule that matches, or `|rules|` when none does. */
  function FirstMatchIndex(text: string, rules: seq<Rule>): (i: nat)
    ensures i <= |rules|
    ensures i < |rules| ==> Matches(text, rules[i])
    ensures forall j :: 0 <= j < i ==> !Matches(text, rules[j])
    decreases |rules|
  {
    if |rules| == 0 then 0
    else if Matches(text, rules[0]) then 0
    else
      var i := FirstMatchIndex(text, rules[1..]);
      assert forall j :: 1 <= j < |rules| ==> rules[j] == rules[1..][j - 1];
      i + 1
  }

  /** The chain of `if (...) return ...;`: the icon of the first rule that matches, or
      `fallback` when none does. */
  function FirstMatch(text: string, rules: seq<Rule>, fallback: Icon): Icon {
    var i := FirstMatchIndex(text, rules);
    if i < |rules| then rules[i].icon else fallback
  }

  /** When no rule yields the fallback, the fallback is chosen exactly when no rule
      matches; a matching first rule always wins. */
  lemma FallbackIff(text: string, rules: seq<Rule>, fallback: Icon)
    requires forall i :: 0 <= i < |rules| ==> rules[i].icon != fallback
    ensures FirstMatch(text, rules, fallback) == fallback <==> forall i :: 0 <= i < |rules| ==> !Matches(text, rules[i])
  {
  }

  /** A matching first rule decides. */
  lemma FirstRuleWins(text: string, rules: seq<Rule>, fallback: Icon)
    requires |rules| > 0 && Matches(text, rules[0])
    ensures FirstMatch(text, rules, fallback) == rules[0].icon
  {
  }

  /** No device rule yields Zap; the first one matches every text holding `light`. */
  lemma DeviceRulesFacts(text: string)
    ensures forall i :: 0 <= i < |DEVICE_RULES| ==> DEVICE_RULES[i].icon != Zap
    ensures Contains(text, "light") ==> Matches(text, DEVICE_RULES[0])
  {
    assert "light" in DEVICE_RULES[0].keywords;
  }

  /** `getIconForScenario(iconName, scenarioName)`: a known, non-empty icon name decides;
      otherwise the keyword rules on the lower-cased name, with Play as the default. */
  function IconForScenario(iconName: Option<string>, scenarioName: Option<string>): (r: Icon)
    ensures Truthy(iconName) && iconName.value in SCENARIO_ICON_MAP ==> r == SCENARIO_ICON_MAP[iconName.value]
    ensures !(Truthy(iconName) && iconName.value in SCENARIO_ICON_MAP)
      && (forall i :: 0 <= i < |SCENARIO_RULES| ==> !Matches(Lower(scenarioName.GetOr("")), SCENARIO_RULES[i]))
      ==> r == Play
  {
    if Truthy(iconName) && iconName.value in SCENARIO_ICON_MAP then SCENARIO_ICON_MAP[iconName.value]
    else FirstMatch(Lower(scenarioName.GetOr("")), SCENARIO_RULES, Play)
  }

  /** No scenario rule yields Play. */
  lemma NoRuleYieldsPlay(i: nat)
    requires i < |SCENARIO_RULES|
    ensures SCENARIO_RULES[i].icon != Play
  {
  }

  /** Play is chosen only through the table's `default` entry or when no keyword of the
      name matches. */
  lemma PlayMeansNoKeyword(iconName: Option<string>, scenarioName: Option<string>)
    requires IconForScenario(iconName, scenarioName) == Play
    ensures || iconName == Some("default")
            || forall i :: 0 <= i < |SCENARIO_RULES| ==> !Matches(Lower(scenarioName.GetOr("")), SCENARIO_RULES[i])
  {
    if !(Truthy(iconName) && iconName.value in SCENARIO_ICON_MAP) {
      var text := Lower(scenarioName.GetOr(""));
      var i := FirstMatchIndex(text, SCENARIO_RULES);
      if i < |SCENARIO_RULES| {
        NoRuleYieldsPlay(i);
      }
    }
  }

  /** Only the eighth scenario rule yields PartyPopper. */
  lemma OnlyPartyRuleYieldsParty(i: nat)
    requires i < |SCENARIO_RULES| && SCENARIO_RULES[i].icon == PartyPopper
    ensures i == 7
  {
  }

  /** A text the evening rule does not match does not hold `вечерин` either. */
  lemma NoEveningNoParty(text: string)
    requires !Matches(text, SCENARIO_RULES[5])
    ensures !Contains(text, "вечерин")
  {
    assert "вечер" in SCENARIO_RULES[5].keywords;
    assert StartsWith("вечерин", "вечер");
    if Contains(text, "вечерин") {
      ContainsTransitive(text, "вечерин", "вечер");
    }
  }

  /** The keyword rules find PartyPopper only in a text holding `гост`, `тусов` or
      `party`. */
  lemma PartyRuleNeedsOtherKeyword(text: string)
    requires FirstMatch(text, SCENARIO_RULES, Play) == PartyPopper
    ensures Contains(text, "гост") || Contains(text, "тусов") || Contains(text, "party")
  {
    var i := FirstMatchIndex(text, SCENARIO_RULES);
    OnlyPartyRuleYieldsParty(i);
    NoEveningNoParty(text);
    var k :| k in SCENARIO_RULES[7].keywords && Contains(text, k);
    PartyKeywords(k);
  }

  /** The keywords of the party rule. */
  lemma PartyKeywords(k: string)
    requires k in SCENARIO_RULES[7].keywords
    ensures k == "гост" || k == "тусов" || k == "вечерин" || k == "party"
  {
  }

  /** The `вечерин` keyword of the party rule can never fire, since the earlier evening
      rule's `вечер` is part of it: a scenario without a known icon name gets PartyPopper
      only when its name holds `гост`, `тусов` or `party`, in any letter case. */
  lemma PartyNeedsOtherKeyword(iconName: Option<string>, scenarioName: Option<string>)
    requires !(Truthy(iconName) && iconName.value in SCENARIO_ICON_MAP)
    requires IconForScenario(iconName, scenarioName) == PartyPopper
    ensures var text := Lower(scenarioName.GetOr(""));
      Contains(text, "гост") || Contains(text, "тусов") || Contains(text, "party")
  {
    PartyRuleNeedsOtherKeyword(Lower(scenarioName.GetOr("")));
  }

  /** `getIconForDevice(type)`: the device keyword rules on the lower-cased type, with Zap
      as the default. */
  function IconForDevice(kind: string): (r: Icon)
    ensures Contains(Lower(kind), "light") ==> r == Lightbulb
    ensures r == Zap <==> forall i :: 0 <= i < |DEVICE_RULES| ==> !Matches(Lower(kind), DEVICE_RULES[i])
  {
    DeviceRulesFacts(Lower(kind));
    FallbackIff(Lower(kind), DEVICE_RULES, Zap);
    if Contains(Lower(kind), "light") then
      FirstRuleWins(Lower(kind), DEVICE_RULES, Zap);
      FirstMatch(Lower(kind), DEVICE_RULES, Zap)
    else
      FirstMatch(Lower(kind), DEVICE_RULES, Zap)
  }

  /** Device types are matched regardless of letter case. */
  lemma IconForDeviceIgnoresCase(kind: string)
    ensures IconForDevice(Lower(kind)) == IconForDevice(kind)
  {
    LowerIdempotent(kind);
  }
}
