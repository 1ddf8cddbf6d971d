/** The rule-based classifiers of app.py: the temperature colour of the
    map markers, the icon label, the mood suggestions of the weather diary
    and the list of everyday advice. Each is an ordered chain of tests on
    the temperature, humidity, wind and the description text. */
module AppRules {
  import opened Text
  import opened Weather
  import opened AppTables
  import opened AppForecast

  // ---------------------------------------------------------------------
  // Temperature colour

  /** `get_temperature_color(temp)`: the colour of the legend line the
      temperature falls on. */
  function TemperatureColor(temp: real): (r: string)
    ensures forall i :: 0 <= i < |Legend| && InLine(Legend[i], temp) ==> r == Legend[i].color
  {
    if temp < 0.0 then "#0000FF"
    else if temp < 10.0 then "#4169E1"
    else if temp < 20.0 then "#32CD32"
    else if temp < 25.0 then "#FFD700"
    else if temp < 30.0 then "#FF8C00"
    else "#FF0000"
  }

  /** One line of the map's temperature legend: a colour for the
      temperatures from `low` (inclusive, none for the first line) to
      `high` (exclusive, none for the last line). */
  datatype LegendLine = LegendLine(color: string, low: Option<real>, high: Option<real>)

  /** The legend drawn on the map: below 0, 0-10, 10-20, 20-25, 25-30 and
      30 or above. */
  const Legend: seq<LegendLine> := [
    LegendLine("#0000FF", None, Some(0.0)),
    LegendLine("#4169E1", Some(0.0), Some(10.0)),
    LegendLine("#32CD32", Some(10.0), Some(20.0)),
    LegendLine("#FFD700", Some(20.0), Some(25.0)),
    LegendLine("#FF8C00", Some(25.0), Some(30.0)),
    LegendLine("#FF0000", Some(30.0), None)
  ]

  predicate InLine(line: LegendLine, temp: real) {
    && (line.low.None? || line.low.value <= temp)
    && (line.high.None? || temp < line.high.value)
  }

  /** The marker colour is the colour of the legend line the temperature
      falls on, and the lines do not overlap, so the legend tells the
      truth for every temperature. */
  lemma ColorMatchesLegend(temp: real, i: int)
    requires 0 <= i < |Legend| && InLine(Legend[i], temp)
    ensures TemperatureColor(temp) == Legend[i].color
    ensures forall j :: 0 <= j < |Legend| && j != i ==> !InLine(Legend[j], temp)
  {
  }

  /** Every temperature falls on some line of the legend. */
  lemma LegendCoversEveryTemperature(temp: real)
    ensures exists i :: 0 <= i < |Legend| && InLine(Legend[i], temp)
  {
    var i := if temp < 0.0 then 0 else if temp < 10.0 then 1 else if temp < 20.0 then 2
             else if temp < 25.0 then 3 else if temp < 30.0 then 4 else 5;
    assert InLine(Legend[i], temp);
  }

  /** The position of a colour in the legend, from coldest to hottest. */
  function ColorRank(color: string): int {
    if color == "#0000FF" then 0
    else if color == "#4169E1" then 1
    else if color == "#32CD32" then 2
    else if color == "#FFD700" then 3
    else if color == "#FF8C00" then 4
    else 5
  }

  /** A warmer temperature never gets a colder colour. */
  lemma ColorMonotone(t1: real, t2: real)
    requires t1 <= t2
    ensures ColorRank(TemperatureColor(t1)) <= ColorRank(TemperatureColor(t2))
  {
  }

  // ---------------------------------------------------------------------
  // Icon label

  /** `icon_map` of `get_weather_icon_emoji`. */
  const IconMap: map<string, string> := map[
    "01d" := "SUN", "01n" := "MOON",
    "02d" := "PARTLY_CLOUDY", "02n" := "CLOUDY",
    "03d" := "CLOUDY", "03n" := "CLOUDY",
    "04d" := "CLOUDY", "04n" := "CLOUDY",
    "09d" := "RAIN", "09n" := "RAIN",
    "10d" := "RAIN", "10n" := "RAIN",
    "11d" := "STORM", "11n" := "STORM",
    "13d" := "SNOW", "13n" := "SNOW",
    "50d" := "FOG", "50n" := "FOG"
  ]

  /** `get_weather_icon_emoji(icon_code)`: the table's label, or "CLEAR"
      for a code it does not list. */
  function IconLabel(iconCode: string): (r: string)
    ensures iconCode in IconMap ==> r == IconMap[iconCode]
    ensures iconCode !in IconMap ==> r == "CLEAR"
  {
    if iconCode in IconMap then IconMap[iconCode] else "CLEAR"
  }

  /** No listed code is labelled "CLEAR", so "CLEAR" means exactly an
      unknown code. */
  lemma ClearMeansUnknown(iconCode: string)
    ensures IconLabel(iconCode) == "CLEAR" <==> iconCode !in IconMap
  {
    assert forall k :: k in IconMap ==> IconMap[k] != "CLEAR";
  }

  /** Day and night codes of a condition share their label, except for
      clear sky (SUN and MOON) and few clouds (PARTLY_CLOUDY and CLOUDY). */
  lemma DayAndNightAgree()
    ensures IconLabel("03d") == IconLabel("03n") == "CLOUDY"
    ensures IconLabel("04d") == IconLabel("04n") == "CLOUDY"
    ensures IconLabel("09d") == IconLabel("09n") == "RAIN"
    ensures IconLabel("10d") == IconLabel("10n") == "RAIN"
    ensures IconLabel("11d") == IconLabel("11n") == "STORM"
    ensures IconLabel("13d") == IconLabel("13n") == "SNOW"
    ensures IconLabel("50d") == IconLabel("50n") == "FOG"
  {
  }

  lemma DayAndNightDiffer()
    ensures IconLabel("01d") == "SUN" && IconLabel("01n") == "MOON"
    ensures IconLabel("02d") == "PARTLY_CLOUDY" && IconLabel("02n") == "CLOUDY"
  {
  }

  /** Every icon the demo forecast can draw has its own label. */
  lemma ForecastPatternsLabelled()
    ensures forall i :: 0 <= i < |Patterns| ==> Patterns[i].icon in IconMap
  {
  }

  // ---------------------------------------------------------------------
  // Mood suggestions

  /** The description mentions clear sky: "맑" or, in any case, "clear". */
  predicate MentionsClear(desc: string) {
    Contains(desc, "맑") || Contains(Lower(desc), "clear")
  }

  /** The description mentions rain: "비" or, in any case, "rain". */
  predicate MentionsRain(desc: string) {
    Contains(desc, "비") || Contains(Lower(desc), "rain")
  }

  /** The description mentions snow: "눈" or, in any case, "snow". */
  predicate MentionsSnow(desc: string) {
    Contains(desc, "눈") || Contains(Lower(desc), "snow")
  }

  /** The description mentions clouds: "구름많음" or "구름". */
  predicate MentionsClouds(desc: string) {
    Contains(desc, "구름많음") || Contains(desc, "구름")
  }

  /** The description mentions overcast: "흐림" or, in any case, "cloudy". */
  predicate MentionsOvercast(desc: string) {
    Contains(desc, "흐림") || Contains(Lower(desc), "cloudy")
  }

  /** The description mentions fog: "안개" or, in any case, "fog". */
  predicate MentionsFog(desc: string) {
    Contains(desc, "안개") || Contains(Lower(desc), "fog")
  }

  /** The three choices offered without weather data. */
  const NeutralMoods: seq<string> := ["😊 좋음", "😐 보통", "😔 별로"]

  /** The six lists of four, one per later branch of the chain. */
  const ClearMoods: seq<string> := ["😊 상쾌함", "🌞 기분좋음", "✨ 활기참", "😊 좋음"]
  const RainMoods: seq<string> := ["🌧️ 차분함", "💭 사색적", "😌 평온함", "😐 보통"]
  const CloudMoods: seq<string> := ["☁️ 편안함", "😌 평온함", "💭 생각많음", "😊 좋음"]
  const HotMoods: seq<string> := ["🌞 활발함", "💦 더위먹음", "😅 땀남", "😊 좋음"]
  const ColdMoods: seq<string> := ["🧊 추움", "☃️ 겨울느낌", "😌 포근함", "😊 좋음"]
  const MildMoods: seq<string> := ["😊 좋음", "😌 평온함", "💭 생각많음", "😐 보통"]

  /** `get_weather_mood_suggestions(weather_data)`: three neutral choices
      without data, otherwise four chosen by the first matching test on the
      description (clear, rain, clouds) or the temperature (above 25,
      below 10). */
  function MoodSuggestions(data: Option<WeatherReading>): (r: seq<string>)
    ensures data.None? ==> r == NeutralMoods
    ensures data.Some? ==> |r| == 4
  {
    match data
    case None => NeutralMoods
    case Some(w) =>
      if MentionsClear(w.description) then ClearMoods
      else if MentionsRain(w.description) then RainMoods
      else if Contains(w.description, "구름") then CloudMoods
      else if w.temp > 25.0 then HotMoods
      else if w.temp < 10.0 then ColdMoods
      else MildMoods
  }

  /** The description decides first: clear sky, then rain, then clouds,
      and whichever of them it mentions, the temperature plays no part. */
  lemma MoodDescriptionFirst(w: WeatherReading, temp: real)
    ensures var d := w.description;
      (MentionsClear(d) || MentionsRain(d) || Contains(d, "구름")) ==>
        MoodSuggestions(Some(w)) == MoodSuggestions(Some(w.(temp := temp)))
    ensures MentionsClear(w.description) ==> MoodSuggestions(Some(w)) == ClearMoods
    ensures !MentionsClear(w.description) && MentionsRain(w.description) ==>
      MoodSuggestions(Some(w)) == RainMoods
    ensures !MentionsClear(w.description) && !MentionsRain(w.description) && Contains(w.description, "구름") ==>
      MoodSuggestions(Some(w)) == CloudMoods
  {
  }

  /** When the description mentions none of clear sky, rain and clouds,
      the temperature alone decides: above 25 hot, below 10 cold, mild in
      between, and any other such description gives the same list. */
  lemma MoodTemperatureBands(w: WeatherReading, desc: string)
    ensures var d := w.description;
      !MentionsClear(d) && !MentionsRain(d) && !Contains(d, "구름") ==>
        && (w.temp > 25.0 ==> MoodSuggestions(Some(w)) == HotMoods)
        && (w.temp < 10.0 ==> MoodSuggestions(Some(w)) == ColdMoods)
        && (10.0 <= w.temp <= 25.0 ==> MoodSuggestions(Some(w)) == MildMoods)
        && (!MentionsClear(desc) && !MentionsRain(desc) && !Contains(desc, "구름") ==>
              MoodSuggestions(Some(w)) == MoodSuggestions(Some(w.(description := desc))))
  {
  }

  // ---------------------------------------------------------------------
  // Advice

  /** The pieces of advice `get_weather_advice` can give. */
  datatype Advice =
    | HeavyCoat | WarmCoat | LightJacket | ModerateClothes | LightClothes | LightOutfit | CoolOutfit
    | Umbrella | Slippery | GoodOutdoors | ManyClouds | Overcast | DriveCarefully
    | Humid | Dry
    | Windy
    | PerfectDay
    | Pleasant | SafeDay

  /** The text shown for each piece of advice. */
  function AdviceText(a: Advice): string {
    match a
    case HeavyCoat => "🧥 **두꺼운 외투 필수!** 매우 춥습니다."
    case WarmCoat => "🧥 **따뜻한 외투를 챙기세요!** 쌀쌀합니다."
    case LightJacket => "👕 **얇은 겉옷이 좋겠어요.** 선선합니다."
    case ModerateClothes => "👔 **적당한 옷차림이 좋겠어요.** 쾌적한 날씨입니다."
    case LightClothes => "👕 **가벼운 옷이 편해요.** 따뜻한 날씨입니다."
    case LightOutfit => "👕 **가벼운 옷차림을 추천!** 더워요."
    case CoolOutfit => "🌞 **시원한 옷차림을 추천!** 매우 덥습니다."
    case Umbrella => "☂️ **우산을 꼭 챙기세요!** 비가 와요."
    case Slippery => "❄️ **미끄럼 주의!** 눈이 와요."
    case GoodOutdoors => "☀️ **야외활동하기 좋은 날이에요!** 맑아요."
    case ManyClouds => "☁️ **구름이 많아요.** 선선한 느낌이에요."
    case Overcast => "☁️ **흐린 날씨예요.** 실내 활동이 좋겠어요."
    case DriveCarefully => "🌫️ **운전시 주의하세요.** 시야가 흐려요."
    case Humid => "💧 **습도가 높아요.** 불쾌할 수 있어요."
    case Dry => "🏺 **습도가 낮아요.** 수분 보충 필요!"
    case Windy => "💨 **바람이 강해요.** 우산보다 우비가 좋겠어요."
    case PerfectDay => "🎯 **완벽한 날씨!** 나들이하기 최고예요!"
    case Pleasant => "😊 **쾌적한 날씨예요!** 좋은 하루 되세요!"
    case SafeDay => "🌤️ **오늘도 안전한 하루 보내세요!**"
  }

  /** The length and the first character of each text. */
  function TextKey(a: Advice): (int, char) {
    match a
    case HeavyCoat => (25, '\U{1F9E5}')
    case WarmCoat => (26, '\U{1F9E5}')
    case LightJacket => (25, '\U{1F455}')
    case ModerateClothes => (31, '\U{1F454}')
    case LightClothes => (28, '\U{1F455}')
    case LightOutfit => (23, '\U{1F455}')
    case CoolOutfit => (27, '\U{1F31E}')
    case Umbrella => (25, '\U{2602}')
    case Slippery => (21, '\U{2744}')
    case GoodOutdoors => (27, '\U{2600}')
    case ManyClouds => (26, '\U{2601}')
    case Overcast => (28, '\U{2601}')
    case DriveCarefully => (26, '\U{1F32B}')
    case Humid => (25, '\U{1F4A7}')
    case Dry => (24, '\U{1F3FA}')
    case Windy => (29, '\U{1F4A8}')
    case PerfectDay => (25, '\U{1F3AF}')
    case Pleasant => (26, '\U{1F60A}')
    case SafeDay => (23, '\U{1F324}')
  }

  lemma TextKeyOfText(a: Advice)
    ensures |AdviceText(a)| == TextKey(a).0 && AdviceText(a)[0] == TextKey(a).1
  {
  }

  /** The texts are pairwise different, so the list of advice and the
      lines shown determine each other. */
  lemma AdviceTextsDistinct(a: Advice, b: Advice)
    ensures AdviceText(a) == AdviceText(b) <==> a == b
  {
    TextKeyOfText(a);
    TextKeyOfText(b);
    assert a != b ==> TextKey(a) != TextKey(b);
  }

  predicate IsClothingAdvice(a: Advice) {
    a in {HeavyCoat, WarmCoat, LightJacket, ModerateClothes, LightClothes, LightOutfit, CoolOutfit}
  }

  /** The clothing advice for a temperature: bands of five degrees from
      below 5 to 30 and above. */
  function ClothingAdvice(temp: real): (a: Advice)
    ensures IsClothingAdvice(a)
  {
    if temp < 5.0 then HeavyCoat
    else if temp < 10.0 then WarmCoat
    else if temp < 15.0 then LightJacket
    else if temp < 20.0 then ModerateClothes
    else if temp < 25.0 then LightClothes
    else if temp < 30.0 then LightOutfit
    else CoolOutfit
  }

  /** The advice on the sky, if the description mentions rain, snow, clear
      sky, clouds, overcast or fog, in that order of precedence. */
  function SkyAdvice(desc: string): (r: seq<Advice>)
    ensures |r| <= 1
  {
    if MentionsRain(desc) then [Umbrella]
    else if MentionsSnow(desc) then [Slippery]
    else if MentionsClear(desc) then [GoodOutdoors]
    else if MentionsClouds(desc) then [ManyClouds]
    else if MentionsOvercast(desc) then [Overcast]
    else if MentionsFog(desc) then [DriveCarefully]
    else []
  }

  /** Above 80% humid, below 30% dry. */
  function HumidityAdvice(humidity: int): (r: seq<Advice>)
    ensures |r| <= 1
  {
    if humidity > 80 then [Humid] else if humidity < 30 then [Dry] else []
  }

  /** Wind above 5 m/s. */
  function WindAdvice(windSpeed: real): (r: seq<Advice>)
    ensures |r| <= 1
  {
    if windSpeed > 5.0 then [Windy] else []
  }

  /** The perfect day: 20 to 25 degrees, humidity below 70% and "맑" in
      the description. */
  predicate IsPerfectDay(w: WeatherReading) {
    20.0 <= w.temp <= 25.0 && w.humidity < 70 && Contains(w.description, "맑")
  }

  /** The sky, humidity and wind parts each draw on their own kind of
      advice, and the sky part advises an umbrella exactly on rain. */
  lemma PartKinds(w: WeatherReading)
    ensures forall a :: a in SkyAdvice(w.description) ==>
      a in {Umbrella, Slippery, GoodOutdoors, ManyClouds, Overcast, DriveCarefully}
    ensures Umbrella in SkyAdvice(w.description) <==> MentionsRain(w.description)
    ensures forall a :: a in HumidityAdvice(w.humidity) ==> a in {Humid, Dry}
    ensures forall a :: a in WindAdvice(w.windSpeed) ==> a == Windy
  {
  }

  /** Five parts drawn from disjoint kinds of advice: the clothing advice
      comes only first, and each later kind is found only in its own part. */
  lemma AdviceParts(c: Advice, sky: seq<Advice>, hum: seq<Advice>, wind: seq<Advice>, perf: seq<Advice>)
    requires IsClothingAdvice(c)
    requires forall a :: a in sky ==> a in {Umbrella, Slippery, GoodOutdoors, ManyClouds, Overcast, DriveCarefully}
    requires forall a :: a in hum ==> a in {Humid, Dry}
    requires forall a :: a in wind ==> a == Windy
    requires forall a :: a in perf ==> a == PerfectDay
    ensures var r := [c] + sky + hum + wind + perf;
      && (forall i :: 1 <= i < |r| ==> !IsClothingAdvice(r[i]))
      && (Umbrella in r <==> Umbrella in sky)
      && (PerfectDay in r <==> PerfectDay in perf)
      && Pleasant !in r && SafeDay !in r
  {
    var r := [c] + sky + hum + wind + perf;
    forall i | 1 <= i < |r| ensures !IsClothingAdvice(r[i]) {
      assert r[i] in r[1..];
      assert r[1..] == sky + hum + wind + perf;
    }
  }

  /** The advice list for a reading, as the sum of its five parts. */
  function AdviceFor(w: WeatherReading): (r: seq<Advice>)
    ensures 1 <= |r| <= 5
    ensures r[0] == ClothingAdvice(w.temp)
    ensures forall i :: 1 <= i < |r| ==> !IsClothingAdvice(r[i])
    ensures Umbrella in r <==> MentionsRain(w.description)
    ensures PerfectDay in r <==> IsPerfectDay(w)
    ensures Pleasant !in r && SafeDay !in r
  {
    var perfect := if IsPerfectDay(w) then [PerfectDay] else [];
    PartKinds(w);
    AdviceParts(ClothingAdvice(w.temp), SkyAdvice(w.description), HumidityAdvice(w.humidity),
                WindAdvice(w.windSpeed), perfect);
    [ClothingAdvice(w.temp)] + SkyAdvice(w.description) + HumidityAdvice(w.humidity)
      + WindAdvice(w.windSpeed) + perfect
  }

  /** `get_weather_advice(weather_data)`: the advice appended test by test.
      Since the clothing advice is always appended, the closing fallback
      for an empty list is never taken. */
  method WeatherAdvice(data: Option<WeatherReading>) returns (advice: seq<Advice>)
    ensures data.None? ==> advice == []
    ensures data.Some? ==> advice == AdviceFor(data.value)
  {
    if data.None? {
      return [];
    }
    var w := data.value;
    var temp, desc, humidity, windSpeed := w.temp, w.description, w.humidity, w.windSpeed;
    advice := [];

    if temp < 5.0 {
      advice := advice + [HeavyCoat];
    } else if temp < 10.0 {
      advice := advice + [WarmCoat];
    } else if temp < 15.0 {
      advice := advice + [LightJacket];
    } else if temp < 20.0 {
      advice := advice + [ModerateClothes];
    } else if temp < 25.0 {
      advice := advice + [LightClothes];
    } else if temp < 30.0 {
      advice := advice + [LightOutfit];
    } else {
      advice := advice + [CoolOutfit];
    }
    assert advice == [ClothingAdvice(w.temp)];

    if MentionsRain(desc) {
      advice := advice + [Umbrella];
    } else if MentionsSnow(desc) {
      advice := advice + [Slippery];
    } else if MentionsClear(desc) {
      advice := advice + [GoodOutdoors];
    } else if MentionsClouds(desc) {
      advice := advice + [ManyClouds];
    } else if MentionsOvercast(desc) {
      advice := advice + [Overcast];
    } else if MentionsFog(desc) {
      advice := advice + [DriveCarefully];
    }
    assert advice == [ClothingAdvice(w.temp)] + SkyAdvice(desc);

    if humidity > 80 {
      advice := advice + [Humid];
    } else if humidity < 30 {
      advice := advice + [Dry];
    }
    assert advice == [ClothingAdvice(w.temp)] + SkyAdvice(desc) + HumidityAdvice(humidity);

    if windSpeed > 5.0 {
      advice := advice + [Windy];
    }

    if IsPerfectDay(w) {
      advice := advice + [PerfectDay];
    }
    assert advice == AdviceFor(w);

    if |advice| == 0 {
      if temp >= 15.0 && temp <= 25.0 {
        advice := advice + [Pleasant];
      } else {
        advice := advice + [SafeDay];
      }
    }
  }

  /** A description containing "구름많음" contains "구름", so the first half
      of the cloud test never decides anything on its own. */
  lemma CloudTestRedundant(desc: string)
    ensures MentionsClouds(desc) <==> Contains(desc, "구름")
  {
    if Contains(desc, "구름많음") {
      var i :| OccursAt(desc, "구름많음", i);
      assert desc[i..i + 2] == desc[i..i + 4][..2];
      assert OccursAt(desc, "구름", i);
    }
  }

  /** In the demo records the sky advice follows the description: rain for
      London and a warning of fog for Chuncheon. */
  lemma DemoSkyAdvice()
    ensures SkyAdvice(DemoTable["london"].description) == [Umbrella]
    ensures SkyAdvice(DemoTable["chuncheon"].description) == [DriveCarefully]
  {
    assert DemoTable["london"].description == "비";
    ContainsSelf("비");
    var fog := DemoTable["chuncheon"].description;
    assert fog == "안개";
    LowerUnchanged(fog);
    NotContainsHead(fog, "비");
    NotContainsHead(fog, "rain");
    NotContainsHead(fog, "눈");
    NotContainsHead(fog, "snow");
    NotContainsHead(fog, "맑");
    NotContainsHead(fog, "clear");
    NotContainsHead(fog, "구름많음");
    NotContainsHead(fog, "구름");
    NotContainsHead(fog, "흐림");
    NotContainsHead(fog, "cloudy");
    ContainsSelf(fog);
  }
}
