/** `weather_ai_assistant` of app.py: a keyword router over the question.
    The question is lower-cased and stripped, the topics are tried in a
    fixed order, and the first topic whose keyword occurs in the question
    answers with one line chosen from the current reading. A question that
    matches no topic gets six lines of help. An answer is modelled by
    which template it is; the numbers formatted into the text are not. */
module AppAssistant {
  import opened Text
  import opened Weather

  datatype Topic = Outing | Laundry | Exercise | UmbrellaTopic | Clothing | Driving | General | Unknown

  /** The keywords of each topic. */
  const OutingWords: seq<string> := ["소풍", "나들이", "놀러", "여행", "데이트", "산책", "외출"]
  const LaundryWords: seq<string> := ["빨래", "세탁", "말리기", "건조"]
  const ExerciseWords: seq<string> := ["운동", "조깅", "러닝", "산책", "자전거", "헬스"]
  const UmbrellaWords: seq<string> := ["우산", "비", "rain", "비올"]
  const ClothingWords: seq<string> := ["옷", "입을", "차림", "패션", "코디"]
  const DrivingWords: seq<string> := ["드라이브", "운전", "차"]
  const GeneralWords: seq<string> := ["날씨", "어때", "어떨까", "좋아", "괜찮"]

  /** The topics and their keywords, in the order they are tried. */
  const Rules: seq<(Topic, seq<string>)> := [
    (Outing, OutingWords),
    (Laundry, LaundryWords),
    (Exercise, ExerciseWords),
    (UmbrellaTopic, UmbrellaWords),
    (Clothing, ClothingWords),
    (Driving, DrivingWords),
    (General, GeneralWords)
  ]

  /** `any(word in question for word in words)`. */
  predicate AnyIn(words: seq<string>, question: string) {
    words != [] && (Contains(question, words[0]) || AnyIn(words[1..], question))
  }

  /** Some keyword occurs in the question exactly when one of them, at
      some position of the list, does. */
  lemma {:induction false} AnyInSomeWord(words: seq<string>, question: string)
    ensures AnyIn(words, question) <==> exists i :: 0 <= i < |words| && Contains(question, words[i])
  {
    if words != [] {
      AnyInSomeWord(words[1..], question);
      if AnyIn(words[1..], question) {
        var i :| 0 <= i < |words[1..]| && Contains(question, words[1..][i]);
        assert Contains(question, words[i + 1]);
      }
      if exists i :: 1 <= i < |words| && Contains(question, words[i]) {
        var i :| 1 <= i < |words| && Contains(question, words[i]);
        assert words[1..][i - 1] == words[i];
      }
    }
  }

  /** The first topic from rule `from` on whose keywords occur in the
      question, or `Unknown`. */
  function FirstMatchFrom(question: string, from: nat): (t: Topic)
    requires from <= |Rules|
    ensures t == Unknown <==> forall j :: from <= j < |Rules| ==> !AnyIn(Rules[j].1, question)
    ensures t != Unknown ==> exists i :: (from <= i < |Rules| && Rules[i].0 == t && AnyIn(Rules[i].1, question) &&
      (forall j :: from <= j < i ==> !AnyIn(Rules[j].1, question)))
    decreases |Rules| - from
  {
    if from == |Rules| then Unknown
    else if AnyIn(Rules[from].1, question) then Rules[from].0
    else FirstMatchFrom(question, from + 1)
  }

  /** The topic of a (lower-cased, stripped) question: the first matching
      rule wins. */
  function FirstMatch(question: string): Topic {
    FirstMatchFrom(question, 0)
  }

  /** The answer templates, one group per topic, and the six lines of help. */
  datatype Answer =
    | OutingPerfect | OutingGood | OutingRainy | OutingDoubtful
    | LaundryIdeal | LaundryFine | LaundryRainy | LaundryPoor
    | ExerciseIdeal | ExerciseTooHot | ExerciseTooCold | ExerciseRainy | ExerciseModerate
    | UmbrellaTake | UmbrellaNotNeeded
    | ClothesPadding | ClothesCoat | ClothesJacket | ClothesLongSleeve | ClothesShortSleeve | ClothesShorts
    | DriveFog | DriveRain | DriveWind | DriveGood
    | GeneralBest | GeneralGood | GeneralRainy | GeneralPlain
    | NotUnderstood | TryAsking | AskOuting | AskLaundry | AskExercise | AskClothes

  /** The reply: the apology string without weather data, otherwise the
      list of answer lines. */
  datatype Reply = Apology | Lines(lines: seq<Answer>)

  /** The topic a template answers. */
  function TopicOf(a: Answer): Topic {
    match a
    case OutingPerfect | OutingGood | OutingRainy | OutingDoubtful => Outing
    case LaundryIdeal | LaundryFine | LaundryRainy | LaundryPoor => Laundry
    case ExerciseIdeal | ExerciseTooHot | ExerciseTooCold | ExerciseRainy | ExerciseModerate => Exercise
    case UmbrellaTake | UmbrellaNotNeeded => UmbrellaTopic
    case ClothesPadding | ClothesCoat | ClothesJacket | ClothesLongSleeve | ClothesShortSleeve | ClothesShorts => Clothing
    case DriveFog | DriveRain | DriveWind | DriveGood => Driving
    case GeneralBest | GeneralGood | GeneralRainy | GeneralPlain => General
    case NotUnderstood | TryAsking | AskOuting | AskLaundry | AskExercise | AskClothes => Unknown
  }

  /** The six lines for a question no topic matches. */
  const HelpLines: seq<Answer> := [NotUnderstood, TryAsking, AskOuting, AskLaundry, AskExercise, AskClothes]

  predicate Rainy(w: WeatherReading) { Contains(w.description, "비") }
  predicate Clear(w: WeatherReading) { Contains(w.description, "맑") }

  /** The answer of the outing branch: one of its own templates. */
  function OutingAnswer(w: WeatherReading): (a: Answer)
    ensures TopicOf(a) == Outing
  {
    if 18.0 <= w.temp <= 28.0 && Clear(w) then OutingPerfect
    else if 15.0 <= w.temp <= 30.0 && !Rainy(w) then OutingGood
    else if Rainy(w) then OutingRainy
    else OutingDoubtful
  }

  /** The answer of the laundry branch: one of its own templates. */
  function LaundryAnswer(w: WeatherReading): (a: Answer)
    ensures TopicOf(a) == Laundry
  {
    if w.humidity < 60 && !Rainy(w) && w.windSpeed > 1.0 then LaundryIdeal
    else if w.humidity < 70 && !Rainy(w) then LaundryFine
    else if Rainy(w) then LaundryRainy
    else LaundryPoor
  }

  /** The answer of the exercise branch: one of its own templates. */
  function ExerciseAnswer(w: WeatherReading): (a: Answer)
    ensures TopicOf(a) == Exercise
  {
    if 15.0 <= w.temp <= 25.0 && !Rainy(w) then ExerciseIdeal
    else if w.temp > 30.0 then ExerciseTooHot
    else if w.temp < 10.0 then ExerciseTooCold
    else if Rainy(w) then ExerciseRainy
    else ExerciseModerate
  }

  /** The answer of the umbrella branch: one of its own templates. */
  function UmbrellaAnswer(w: WeatherReading): (a: Answer)
    ensures TopicOf(a) == UmbrellaTopic
  {
    if Rainy(w) then UmbrellaTake else UmbrellaNotNeeded
  }

  /** The answer of the clothing branch: one of its own templates. */
  function ClothingAnswer(w: WeatherReading): (a: Answer)
    ensures TopicOf(a) == Clothing
  {
    if w.temp < 5.0 then ClothesPadding
    else if w.temp < 10.0 then ClothesCoat
    else if w.temp < 15.0 then ClothesJacket
    else if w.temp < 20.0 then ClothesLongSleeve
    else if w.temp < 25.0 then ClothesShortSleeve
    else ClothesShorts
  }

  /** The answer of the driving branch: one of its own templates. */
  function DrivingAnswer(w: WeatherReading): (a: Answer)
    ensures TopicOf(a) == Driving
  {
    if Contains(w.description, "안개") then DriveFog
    else if Rainy(w) then DriveRain
    else if w.windSpeed > 7.0 then DriveWind
    else DriveGood
  }

  /** The answer of the general weather branch: one of its own templates. */
  function GeneralAnswer(w: WeatherReading): (a: Answer)
    ensures TopicOf(a) == General
  {
    if 20.0 <= w.temp <= 25.0 && Clear(w) then GeneralBest
    else if 15.0 <= w.temp <= 28.0 && !Rainy(w) then GeneralGood
    else if Rainy(w) then GeneralRainy
    else GeneralPlain
  }

  /** The outing answer: perfect exactly at 18 to 28 degrees with a clear
      sky; otherwise good exactly when dry at 15 to 30 degrees, and
      doubtful exactly when dry outside that band (the rainy answer is
      `OutingRainyExactly`). */
  lemma OutingCases(w: WeatherReading)
    ensures OutingAnswer(w) == OutingPerfect <==> 18.0 <= w.temp <= 28.0 && Clear(w)
    ensures OutingAnswer(w) == OutingGood <==>
      !(18.0 <= w.temp <= 28.0 && Clear(w)) && 15.0 <= w.temp <= 30.0 && !Rainy(w)
    ensures OutingAnswer(w) == OutingDoubtful <==> !Rainy(w) && !(15.0 <= w.temp <= 30.0)
  {
  }

  /** The laundry answer: rainy exactly when it rains; otherwise ideal
      exactly below 60% and windier than 1 m/s, fine exactly for the rest
      below 70%, and poor exactly at 70% or more. */
  lemma LaundryCases(w: WeatherReading)
    ensures LaundryAnswer(w) == LaundryRainy <==> Rainy(w)
    ensures LaundryAnswer(w) == LaundryIdeal <==> w.humidity < 60 && !Rainy(w) && w.windSpeed > 1.0
    ensures LaundryAnswer(w) == LaundryFine <==>
      !Rainy(w) && w.humidity < 70 && !(w.humidity < 60 && w.windSpeed > 1.0)
    ensures LaundryAnswer(w) == LaundryPoor <==> !Rainy(w) && w.humidity >= 70
  {
  }

  /** The exercise answer: ideal exactly at 15 to 25 degrees without
      rain; too hot exactly above 30, too cold exactly below 10; in
      between, rainy exactly when it rains and moderate otherwise. */
  lemma ExerciseCases(w: WeatherReading)
    ensures ExerciseAnswer(w) == ExerciseIdeal <==> 15.0 <= w.temp <= 25.0 && !Rainy(w)
    ensures ExerciseAnswer(w) == ExerciseTooHot <==> w.temp > 30.0
    ensures ExerciseAnswer(w) == ExerciseTooCold <==> w.temp < 10.0
    ensures ExerciseAnswer(w) == ExerciseRainy <==> Rainy(w) && 10.0 <= w.temp <= 30.0
    ensures ExerciseAnswer(w) == ExerciseModerate <==>
      !Rainy(w) && 10.0 <= w.temp <= 30.0 && !(15.0 <= w.temp <= 25.0)
  {
  }

  /** The umbrella answer: take one exactly when it rains. */
  lemma UmbrellaCases(w: WeatherReading)
    ensures UmbrellaAnswer(w) == UmbrellaTake <==> Rainy(w)
  {
  }

  /** The clothing answer: one template per band of five degrees, padding
      below 5 and shorts from 25. */
  lemma ClothingCases(w: WeatherReading)
    ensures ClothingAnswer(w) == ClothesPadding <==> w.temp < 5.0
    ensures ClothingAnswer(w) == ClothesCoat <==> 5.0 <= w.temp < 10.0
    ensures ClothingAnswer(w) == ClothesJacket <==> 10.0 <= w.temp < 15.0
    ensures ClothingAnswer(w) == ClothesLongSleeve <==> 15.0 <= w.temp < 20.0
    ensures ClothingAnswer(w) == ClothesShortSleeve <==> 20.0 <= w.temp < 25.0
    ensures ClothingAnswer(w) == ClothesShorts <==> w.temp >= 25.0
  {
  }

  /** The driving answer: fog takes precedence over rain, and rain over
      wind. */
  lemma DrivingCases(w: WeatherReading)
    ensures DrivingAnswer(w) == DriveFog <==> Contains(w.description, "안개")
    ensures DrivingAnswer(w) == DriveRain <==> !Contains(w.description, "안개") && Rainy(w)
    ensures DrivingAnswer(w) == DriveWind <==>
      !Contains(w.description, "안개") && !Rainy(w) && w.windSpeed > 7.0
    ensures DrivingAnswer(w) == DriveGood <==>
      !Contains(w.description, "안개") && !Rainy(w) && w.windSpeed <= 7.0
  {
  }

  /** The general answer: the best exactly at 20 to 25 degrees with a
      clear sky; otherwise good exactly when dry at 15 to 28 degrees,
      rainy exactly when it rains, and plain exactly when dry outside
      that band. */
  lemma GeneralCases(w: WeatherReading)
    ensures GeneralAnswer(w) == GeneralBest <==> 20.0 <= w.temp <= 25.0 && Clear(w)
    ensures GeneralAnswer(w) == GeneralGood <==>
      !(20.0 <= w.temp <= 25.0 && Clear(w)) && 15.0 <= w.temp <= 28.0 && !Rainy(w)
    ensures GeneralAnswer(w) == GeneralRainy <==> Rainy(w) && !(20.0 <= w.temp <= 25.0 && Clear(w))
    ensures GeneralAnswer(w) == GeneralPlain <==> !Rainy(w) && !(15.0 <= w.temp <= 28.0)
  {
  }

  /** The lines answering a topic. */
  function AnswerLines(t: Topic, w: WeatherReading): (r: seq<Answer>)
    ensures t != Unknown ==> |r| == 1 && TopicOf(r[0]) == t
    ensures t == Unknown ==> |r| == 6 && r[0] == NotUnderstood
  {
    match t
    case Outing => [OutingAnswer(w)]
    case Laundry => [LaundryAnswer(w)]
    case Exercise => [ExerciseAnswer(w)]
    case UmbrellaTopic => [UmbrellaAnswer(w)]
    case Clothing => [ClothingAnswer(w)]
    case Driving => [DrivingAnswer(w)]
    case General => [GeneralAnswer(w)]
    case Unknown => HelpLines
  }

  /** The topic as the script's `elif` chain tests it. */
  function ChainTopic(q: string): Topic {
    if AnyIn(OutingWords, q) then Outing
    else if AnyIn(LaundryWords, q) then Laundry
    else if AnyIn(ExerciseWords, q) then Exercise
    else if AnyIn(UmbrellaWords, q) then UmbrellaTopic
    else if AnyIn(ClothingWords, q) then Clothing
    else if AnyIn(DrivingWords, q) then Driving
    else if AnyIn(GeneralWords, q) then General
    else Unknown
  }

  /** The chain picks the first rule of the table that matches. */
  lemma ChainIsFirstMatch(q: string)
    ensures ChainTopic(q) == FirstMatch(q)
  {
    assert FirstMatchFrom(q, 7) == Unknown;
  }

  /** The topic chain of `weather_ai_assistant` on a normalised question:
      the first topic whose keyword the question contains appends its
      answer; if none does, the six lines of help are appended. */
  method RespondTo(q: string, w: WeatherReading) returns (responses: seq<Answer>)
    ensures responses == AnswerLines(ChainTopic(q), w)
  {
    // `topic` records which branch of the chain was taken.
    ghost var topic := Unknown;
    responses := [];
    if AnyIn(OutingWords, q) {
      topic := Outing;
      responses := responses + [OutingAnswer(w)];
      assert responses == AnswerLines(topic, w);
    } else if AnyIn(LaundryWords, q) {
      topic := Laundry;
      responses := responses + [LaundryAnswer(w)];
      assert responses == AnswerLines(topic, w);
    } else if AnyIn(ExerciseWords, q) {
      topic := Exercise;
      responses := responses + [ExerciseAnswer(w)];
      assert responses == AnswerLines(topic, w);
    } else if AnyIn(UmbrellaWords, q) {
      topic := UmbrellaTopic;
      responses := responses + [UmbrellaAnswer(w)];
      assert responses == AnswerLines(topic, w);
    } else if AnyIn(ClothingWords, q) {
      topic := Clothing;
      responses := responses + [ClothingAnswer(w)];
      assert responses == AnswerLines(topic, w);
    } else if AnyIn(DrivingWords, q) {
      topic := Driving;
      responses := responses + [DrivingAnswer(w)];
      assert responses == AnswerLines(topic, w);
    } else if AnyIn(GeneralWords, q) {
      topic := General;
      responses := responses + [GeneralAnswer(w)];
      assert responses == AnswerLines(topic, w);
    } else {
      responses := responses + [NotUnderstood];
      responses := responses + [TryAsking];
      responses := responses + [AskOuting];
      responses := responses + [AskLaundry];
      responses := responses + [AskExercise];
      responses := responses + [AskClothes];
      assert responses == AnswerLines(topic, w);
    }
    assert topic == ChainTopic(q);
  }

  /** `weather_ai_assistant(question, weather_data)`: the apology without
      data; otherwise the answer lines for the lower-cased, stripped
      question. */
  method WeatherAiAssistant(question: string, data: Option<WeatherReading>) returns (reply: Reply)
    ensures data.None? ==> reply == Apology
    ensures data.Some? ==>
      reply == Lines(AnswerLines(FirstMatch(Strip(Lower(question))), data.value))
  {
    if data.None? {
      return Apology;
    }
    var q := Strip(Lower(question));
    var responses := RespondTo(q, data.value);
    ChainIsFirstMatch(q);
    reply := Lines(responses);
  }

  /** A recognised question gets exactly one line, on its topic; any other
      gets exactly six. */
  lemma ReplyLength(question: string, w: WeatherReading)
    ensures var t := FirstMatch(Strip(Lower(question)));
      var lines := AnswerLines(t, w);
      (t != Unknown ==> |lines| == 1 && TopicOf(lines[0]) == t) && (t == Unknown ==> |lines| == 6)
  {
  }

  /** "산책" (a walk) is a keyword of both outings and exercise; outings are
      tried first, so a walk is answered as an outing. */
  lemma WalkIsAnOuting(question: string)
    requires Contains(question, "산책")
    ensures FirstMatch(question) == Outing
    ensures AnyIn(ExerciseWords, question)
  {
    assert OutingWords[5] == "산책";
    assert ExerciseWords[3] == "산책";
    AnyInSomeWord(OutingWords, question);
    AnyInSomeWord(ExerciseWords, question);
  }

  /** Rain in the description decides the umbrella and laundry answers,
      and rules out the good outing, the ideal exercise and the good
      general answer. */
  lemma RainAnswers(w: WeatherReading)
    requires Rainy(w)
    ensures UmbrellaAnswer(w) == UmbrellaTake
    ensures LaundryAnswer(w) == LaundryRainy
    ensures OutingAnswer(w) != OutingGood && ExerciseAnswer(w) != ExerciseIdeal
    ensures GeneralAnswer(w) != GeneralGood
  {
  }

  /** The outing answer is the rainy one exactly when it rains and the
      perfect-outing test (18 to 28 degrees and clear) fails. */
  lemma OutingRainyExactly(w: WeatherReading)
    ensures OutingAnswer(w) == OutingRainy <==>
      Rainy(w) && !(18.0 <= w.temp <= 28.0 && Clear(w))
  {
  }

  /** The sky test comes before the rain test: a description with both
      "맑" and "비" gets the perfect outing and the best general answer
      at the right temperature, although it rains. */
  lemma ClearBeatsRain(w: WeatherReading)
    requires Clear(w) && Rainy(w) && 20.0 <= w.temp <= 25.0
    ensures OutingAnswer(w) == OutingPerfect
    ensures GeneralAnswer(w) == GeneralBest
    ensures UmbrellaAnswer(w) == UmbrellaTake
  {
  }
}
