/** The constant tables of app.py: the Korean-to-English city table, the
    17 demo weather records and the base values of the demo forecast. */
module AppTables {
  import opened Text
  import opened Weather
  import opened Lookup

  /** `KOREAN_CITY_MAPPING` of app.py, written as the union of the four
      commented sections of the dictionary literal. */
  const CityMap: map<string, string> :=
    MetroCities + MoreMetroCities + ProvincialSeats + Provinces + OtherCities

  /** The special and metropolitan cities, Seoul to Incheon. */
  const MetroCities: map<string, string> := map[
    "서울" := "Seoul", "서울시" := "Seoul", "서울특별시" := "Seoul", "부산" := "Busan",
    "부산시" := "Busan", "부산광역시" := "Busan", "대구" := "Daegu", "대구시" := "Daegu",
    "대구광역시" := "Daegu", "인천" := "Incheon", "인천시" := "Incheon", "인천광역시" := "Incheon"
  ]

  /** The rest of the metropolitan cities, Gwangju to Ulsan. */
  const MoreMetroCities: map<string, string> := map[
    "광주" := "Gwangju", "광주시" := "Gwangju", "광주광역시" := "Gwangju", "대전" := "Daejeon",
    "대전시" := "Daejeon", "대전광역시" := "Daejeon", "울산" := "Ulsan", "울산시" := "Ulsan",
    "울산광역시" := "Ulsan"
  ]

  /** Provincial capitals and other major cities. */
  const ProvincialSeats: map<string, string> := map[
    "수원" := "Suwon", "수원시" := "Suwon", "춘천" := "Chuncheon", "춘천시" := "Chuncheon",
    "청주" := "Cheongju", "청주시" := "Cheongju", "전주" := "Jeonju", "전주시" := "Jeonju",
    "포항" := "Pohang", "포항시" := "Pohang", "창원" := "Changwon", "창원시" := "Changwon",
    "제주" := "Jeju", "제주시" := "Jeju", "제주도" := "Jeju"
  ]

  /** Provinces, each mapped to a major city in it. */
  const Provinces: map<string, string> := map[
    "경기도" := "Suwon", "강원도" := "Chuncheon", "충청북도" := "Cheongju", "충청남도" := "Daejeon",
    "충북" := "Cheongju", "충남" := "Daejeon", "전라북도" := "Jeonju", "전라남도" := "Gwangju",
    "전북" := "Jeonju", "전남" := "Gwangju", "경상북도" := "Daegu", "경상남도" := "Changwon",
    "경북" := "Daegu", "경남" := "Changwon"
  ]

  /** Further cities (`김포` among them, mapped to Incheon, and `전주` a
      second time with the same value). */
  const OtherCities: map<string, string> := map[
    "안양" := "Anyang", "안산" := "Ansan", "고양" := "Goyang", "성남" := "Seongnam",
    "용인" := "Yongin", "부천" := "Bucheon", "김포" := "Incheon", "김포시" := "Incheon",
    "천안" := "Cheonan", "전주" := "Jeonju", "마산" := "Masan", "진주" := "Jinju",
    "목포" := "Mokpo", "여수" := "Yeosu", "순천" := "Suncheon"
  ]

  /** The records of `get_demo_weather_data` in app.py, keyed in lower case. */
  const DemoTable: map<string, WeatherReading> := map[
    "seoul" := WeatherReading("Seoul", "KR", 1698106800, 1698145200, 18.5, 17.2, 65, 1013, 15.0, 22.0, "구름조금", "02d", 2.5, 200),
    "busan" := WeatherReading("Busan", "KR", 1698106900, 1698145300, 20.1, 19.8, 72, 1015, 17.0, 23.0, "맑음", "01d", 3.1, 200),
    "incheon" := WeatherReading("Incheon", "KR", 1698106750, 1698145150, 17.8, 16.9, 68, 1012, 14.0, 21.0, "흐림", "04d", 2.8, 200),
    "daegu" := WeatherReading("Daegu", "KR", 1698107000, 1698145400, 19.3, 18.7, 61, 1016, 16.0, 22.0, "맑음", "01d", 2.2, 200),
    "daejeon" := WeatherReading("Daejeon", "KR", 1698106850, 1698145250, 18.7, 17.9, 64, 1014, 15.0, 21.0, "구름조금", "02d", 2.1, 200),
    "gwangju" := WeatherReading("Gwangju", "KR", 1698107100, 1698145500, 20.5, 19.8, 70, 1013, 17.0, 23.0, "맑음", "01d", 2.9, 200),
    "ulsan" := WeatherReading("Ulsan", "KR", 1698107050, 1698145450, 19.8, 19.2, 69, 1015, 16.0, 22.0, "구름많음", "03d", 3.3, 200),
    "suwon" := WeatherReading("Suwon", "KR", 1698106780, 1698145180, 18.2, 17.5, 66, 1013, 15.0, 21.0, "구름조금", "02d", 2.4, 200),
    "chuncheon" := WeatherReading("Chuncheon", "KR", 1698106700, 1698145100, 16.1, 15.3, 71, 1011, 12.0, 19.0, "안개", "50d", 1.8, 200),
    "cheongju" := WeatherReading("Cheongju", "KR", 1698106820, 1698145220, 17.9, 17.1, 67, 1012, 14.0, 20.0, "구름많음", "03d", 2.3, 200),
    "jeonju" := WeatherReading("Jeonju", "KR", 1698107050, 1698145450, 19.4, 18.8, 68, 1014, 16.0, 22.0, "맑음", "01d", 2.6, 200),
    "jeju" := WeatherReading("Jeju", "KR", 1698107200, 1698145600, 22.3, 21.9, 75, 1016, 19.0, 25.0, "구름조금", "02d", 4.1, 200),
    "kimpo" := WeatherReading("김포", "KR", 1698106770, 1698145170, 17.5, 16.8, 67, 1012, 14.0, 20.0, "구름많음", "03d", 2.6, 200),
    "tokyo" := WeatherReading("Tokyo", "JP", 1698106200, 1698144600, 21.3, 20.8, 58, 1018, 18.0, 24.0, "맑음", "01d", 1.8, 200),
    "new york" := WeatherReading("New York", "US", 1698142800, 1698180000, 16.2, 15.1, 72, 1010, 12.0, 19.0, "흐림", "04d", 3.2, 200),
    "london" := WeatherReading("London", "GB", 1698142200, 1698179400, 12.8, 11.5, 78, 1008, 9.0, 15.0, "비", "10d", 4.2, 200),
    "paris" := WeatherReading("Paris", "FR", 1698142500, 1698179700, 14.6, 13.9, 68, 1012, 11.0, 17.0, "구름많음", "03d", 2.8, 200)
  ]

  /** An entry of `base_demo_data` in `get_demo_forecast_data`. */
  datatype ForecastBase = ForecastBase(temp: real, icon: string, desc: string)

  /** `base_demo_data` of `get_demo_forecast_data`. */
  const ForecastBases: map<string, ForecastBase> := map[
    "seoul" := ForecastBase(18.5, "02d", "구름조금"),
    "busan" := ForecastBase(20.1, "01d", "맑음"),
    "incheon" := ForecastBase(17.8, "04d", "흐림"),
    "daegu" := ForecastBase(19.3, "01d", "맑음"),
    "daejeon" := ForecastBase(18.7, "02d", "구름조금"),
    "gwangju" := ForecastBase(20.5, "01d", "맑음"),
    "ulsan" := ForecastBase(19.8, "03d", "구름많음"),
    "suwon" := ForecastBase(18.2, "02d", "구름조금"),
    "chuncheon" := ForecastBase(16.1, "50d", "안개"),
    "cheongju" := ForecastBase(17.9, "03d", "구름많음"),
    "jeonju" := ForecastBase(19.4, "01d", "맑음"),
    "jeju" := ForecastBase(22.3, "02d", "구름조금"),
    "kimpo" := ForecastBase(17.5, "03d", "구름많음"),
    "tokyo" := ForecastBase(21.3, "01d", "맑음"),
    "new york" := ForecastBase(16.2, "04d", "흐림"),
    "london" := ForecastBase(12.8, "10d", "비"),
    "paris" := ForecastBase(14.6, "03d", "구름많음")
  ]

  /** The 17 cities that have a demo record. */
  const DemoCities: set<string> := {
    "seoul", "busan", "incheon", "daegu", "daejeon", "gwangju", "ulsan", "suwon",
    "chuncheon", "cheongju", "jeonju", "jeju", "kimpo",
    "tokyo", "new york", "london", "paris"
  }

  /** The demo table holds exactly the 17 listed cities. */
  lemma DemoTableCities()
    ensures DemoTable.Keys == DemoCities
  {
  }

  /** The forecast's base table holds the same 17 cities. */
  lemma ForecastBasesCities()
    ensures ForecastBases.Keys == DemoCities
  {
  }

  /** A forecast base agrees with a demo weather record on temperature,
      icon and description. */
  predicate BaseMatches(b: ForecastBase, w: WeatherReading) {
    b.temp == w.temp && b.icon == w.icon && b.desc == w.description
  }

  /** Each city's forecast base repeats its demo weather record. */
  lemma ForecastBasesMatchDemoTable()
    ensures forall k :: k in ForecastBases && k in DemoTable ==>
      BaseMatches(ForecastBases[k], DemoTable[k])
  {
  }

  /** A Hangul-syllable key, translated to a name that starts with an ASCII
      capital, ends in an ASCII lower-case letter and contains no white space. */
  predicate KoreanToEnglish(k: string, v: string) {
    && k != [] && '\U{AC00}' <= k[0] <= '\U{D7A3}'
    && v != [] && 'A' <= v[0] <= 'Z' && 'a' <= v[|v| - 1] <= 'z'
  }

  ghost predicate SectionKoreanToEnglish(section: map<string, string>) {
    forall k :: k in section ==> KoreanToEnglish(k, section[k])
  }

  lemma MetroCitiesKoreanToEnglish()
    ensures SectionKoreanToEnglish(MetroCities)
  {
  }

  lemma MoreMetroCitiesKoreanToEnglish()
    ensures SectionKoreanToEnglish(MoreMetroCities)
  {
  }

  lemma ProvincialSeatsKoreanToEnglish()
    ensures SectionKoreanToEnglish(ProvincialSeats)
  {
  }

  lemma ProvincesKoreanToEnglish()
    ensures SectionKoreanToEnglish(Provinces)
  {
  }

  lemma OtherCitiesKoreanToEnglish()
    ensures SectionKoreanToEnglish(OtherCities)
  {
  }

  /** Joining two such sections gives another. */
  lemma UnionKoreanToEnglish(a: map<string, string>, b: map<string, string>)
    requires SectionKoreanToEnglish(a) && SectionKoreanToEnglish(b)
    ensures SectionKoreanToEnglish(a + b)
  {
  }

  /** A table of Hangul keys and English names has English values: a name
      starting with an ASCII capital is never a key, and a name with letters
      at both ends is its own strip. */
  lemma KoreanToEnglishValues(table: map<string, string>)
    requires SectionKoreanToEnglish(table)
    ensures EnglishValues(table)
  {
    forall k | k in table ensures table[k] !in table && Strip(table[k]) == table[k] {
      var v := table[k];
      assert KoreanToEnglish(k, v);
      StripUnchanged(v);
    }
  }

  /** Every Korean name translates to an English name that is neither a key
      nor padded with white space, so resolving twice changes nothing. */
  lemma CityMapHasEnglishValues()
    ensures EnglishValues(CityMap)
  {
    MetroCitiesKoreanToEnglish();
    MoreMetroCitiesKoreanToEnglish();
    ProvincialSeatsKoreanToEnglish();
    ProvincesKoreanToEnglish();
    OtherCitiesKoreanToEnglish();
    UnionKoreanToEnglish(MetroCities, MoreMetroCities);
    UnionKoreanToEnglish(MetroCities + MoreMetroCities, ProvincialSeats);
    UnionKoreanToEnglish(MetroCities + MoreMetroCities + ProvincialSeats, Provinces);
    UnionKoreanToEnglish(MetroCities + MoreMetroCities + ProvincialSeats + Provinces, OtherCities);
    KoreanToEnglishValues(CityMap);
  }

  /** A key of `a` that `b` lacks keeps its value in `a + b`. */
  lemma UnionKeepsLeft(a: map<string, string>, b: map<string, string>, k: string)
    requires k in a && k !in b
    ensures k in a + b && (a + b)[k] == a[k]
  {
  }

  /** "서울" is listed among the metropolitan cities only. */
  lemma SeoulOnlyInMetroCities()
    ensures MetroCities["서울"] == "Seoul"
    ensures "서울" !in MoreMetroCities && "서울" !in ProvincialSeats
    ensures "서울" !in Provinces && "서울" !in OtherCities
  {
  }

  /** So the table translates "서울" to "Seoul". */
  lemma CityMapSeoul()
    ensures "서울" in CityMap && CityMap["서울"] == "Seoul"
  {
    SeoulOnlyInMetroCities();
    UnionKeepsLeft(MetroCities, MoreMetroCities, "서울");
    UnionKeepsLeft(MetroCities + MoreMetroCities, ProvincialSeats, "서울");
    UnionKeepsLeft(MetroCities + MoreMetroCities + ProvincialSeats, Provinces, "서울");
    UnionKeepsLeft(MetroCities + MoreMetroCities + ProvincialSeats + Provinces, OtherCities, "서울");
  }

  /** The demo keys are lower case, so a lookup finds each of them. */
  lemma DemoKeysLowerCase()
    ensures forall k :: k in DemoTable ==> Lower(k) == k
  {
  }

  /** The kimpo record is found under its own key. */
  lemma KimpoRecordFound()
    ensures DemoLookup(DemoTable, "kimpo") == Some(DemoTable["kimpo"])
  {
    LowerUnchanged("kimpo");
    DemoTableCities();
    assert "kimpo" in DemoCities;
  }

  /** The kimpo record is named "김포", which is no demo key: looking the
      record up again by its own name finds nothing. */
  lemma KimpoNameNotAKey()
    ensures DemoTable["kimpo"].name == "김포"
    ensures DemoLookup(DemoTable, DemoTable["kimpo"].name) == None
  {
    assert Lower("김포") == "김포";
  }

  /** The documented example: "SEOUL" finds Seoul at 18.5 degrees with
      "구름조금" (partly cloudy). */
  lemma SeoulInAnyCase()
    ensures DemoLookup(DemoTable, "SEOUL").Some?
    ensures DemoLookup(DemoTable, "SEOUL").value.temp == 18.5
    ensures DemoLookup(DemoTable, "SEOUL").value.description == "구름조금"
    ensures DemoLookup(DemoTable, "Seoul") == Some(DemoTable["seoul"])
  {
    assert Lower("SEOUL") == "seoul";
    assert Lower("Seoul") == "seoul";
  }
}
