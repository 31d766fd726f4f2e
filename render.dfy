/** The render callbacks that page.tsx registers with `useRenderToolCall`, one per tool name:
    each maps the call's status, arguments and result to an abstract view. `Throws` stands for
    a callback that itself raises a TypeError on a result it does not expect. */
module Render {
  import opened Wrappers
  import opened JsonValue
  import opened JsValue
  import JsStr
  import Strings

  /** The lifecycle status a render callback receives. */
  datatype Status = InProgress | Executing | Complete

  /** The tools whose calls the page renders. */
  datatype RenderTool =
    | BarChatData | ScatterPlotData | SentimentAnalysis | ExtractKeywords
    | DetectEmotions | ExtractEntities | AnalyzeReadability | WordFrequency

  /** The name each callback is registered under. */
  function ToolName(tool: RenderTool): string
  {
    match tool
    case BarChatData => "bar_chat_data"
    case ScatterPlotData => "scatter_plot_data"
    case SentimentAnalysis => "sentiment_analysis"
    case ExtractKeywords => "extract_keywords"
    case DetectEmotions => "detect_emotions"
    case ExtractEntities => "extract_entities"
    case AnalyzeReadability => "analyze_readability"
    case WordFrequency => "word_frequency"
  }

  /** The callback registered for a tool name; None for a name with no callback. */
  function ToolNamed(name: string): (r: Option<RenderTool>)
    ensures r.Some? ==> ToolName(r.value) == name
  {
    if name == "bar_chat_data" then Some(BarChatData)
    else if name == "scatter_plot_data" then Some(ScatterPlotData)
    else if name == "sentiment_analysis" then Some(SentimentAnalysis)
    else if name == "extract_keywords" then Some(ExtractKeywords)
    else if name == "detect_emotions" then Some(DetectEmotions)
    else if name == "extract_entities" then Some(ExtractEntities)
    else if name == "analyze_readability" then Some(AnalyzeReadability)
    else if name == "word_frequency" then Some(WordFrequency)
    else None
  }

  /** Every registered name finds its own callback. */
  lemma ToolNamedThenName(tool: RenderTool)
    ensures ToolNamed(ToolName(tool)) == Some(tool)
  {
  }

  /** The arguments of a call, as an object. */
  type Args = seq<(string, Json)>

  /** An "in progress" line: fixed text around one interpolated argument, if any. */
  datatype Caption = Caption(before: string, shown: Option<Json>, after: string)

  /** A CSS bar width: a percentage, or the NaN/Infinity that `x / 0` gives in JavaScript. */
  datatype Width = Percent(p: real) | NonFinite

  datatype Bar = Bar(key: string, value: real, width: Width)
  datatype Keyword = Keyword(word: string, score: Json)
  datatype EmotionRow = EmotionRow(icon: Option<string>, name: string, score: Json)
  datatype EntityGroup = EntityGroup(emoji: string, category: string, colour: string, items: seq<Json>)

  /** The category part of the entities view: the groups, or the falsy value that
      `entities.entities_by_type && ...` evaluates to. */
  datatype EntitySection = Groups(groups: seq<EntityGroup>) | Omitted(falsy: Option<Json>)

  datatype WordBar = WordBar(word: string, count: Json)

  /** The full view of a completed call, one variant per tool. */
  datatype View =
    | BarChartView(title: Option<Json>, summary: Option<Json>, bars: seq<Bar>,
                   xLabel: Option<Json>, yLabel: Option<Json>)
    | ScatterPlotView(title: Option<Json>, summary: Option<Json>, points: Option<Json>,
                      xLabel: Option<Json>, yLabel: Option<Json>)
    | SentimentView(emoji: string, colour: string, text: string)
    | KeywordsView(keywords: seq<Keyword>)
    | EmotionsView(rows: seq<EmotionRow>)
    | EntitiesView(total: Json, unique: Json, section: EntitySection)
    | ReadabilityView(wordCount: Option<Json>, sentenceCount: Option<Json>,
                      avgWordLength: Option<Json>, avgSentenceLength: Option<Json>,
                      score: Option<Json>, difficulty: Option<Json>, badge: string)
    | WordFrequencyView(words: seq<WordBar>, widths: Option<seq<Width>>)

  /** What a render callback produces. */
  datatype Outcome = Nothing | Progress(caption: Caption) | Full(view: View) | Throws

  // ---------------------------------------------------------------------------------------
  // Bar widths

  function MaxOf(values: seq<real>): (m: real)
    requires values != []
    ensures m in values
    ensures forall k :: 0 <= k < |values| ==> values[k] <= m
  {
    if |values| == 1 then values[0]
    else
      var rest := MaxOf(values[1..]);
      if values[0] >= rest then values[0] else rest
  }

  /** `(value / max) * 100`; division by a zero maximum gives NaN or an infinity. */
  function RelativeWidth(value: real, max: real): Width
  {
    if max != 0.0 then Percent(value / max * 100.0) else NonFinite
  }

  /** The width of each bar, relative to `Math.max(...values)`. */
  function Widths(values: seq<real>): (r: seq<Width>)
    ensures |r| == |values|
  {
    if values == [] then []
    else
      var m := MaxOf(values);
      seq(|values|, k requires 0 <= k < |values| => RelativeWidth(values[k], m))
  }

  lemma RatioOfSelf(m: real)
    requires m != 0.0
    ensures m / m == 1.0
  {
  }

  lemma RatioAtMostOne(v: real, m: real)
    requires 0.0 <= v <= m && m > 0.0
    ensures 0.0 <= v / m <= 1.0
  {
    assert v / m * m == v;
  }

  /** The bar of the maximum value is exactly full. */
  lemma WidthOfMaximum(values: seq<real>, k: nat)
    requires k < |values| && values[k] == MaxOf(values) && MaxOf(values) != 0.0
    ensures Widths(values)[k] == Percent(100.0)
  {
    var m := MaxOf(values);
    assert Widths(values)[k] == RelativeWidth(m, m);
    RatioOfSelf(m);
  }

  /** With non-negative values and a positive maximum, every width lies in [0, 100]. */
  lemma WidthsWithinRange(values: seq<real>, k: nat)
    requires k < |values|
    requires forall i :: 0 <= i < |values| ==> values[i] >= 0.0
    requires MaxOf(values) > 0.0
    ensures Widths(values)[k].Percent?
    ensures 0.0 <= Widths(values)[k].p <= 100.0
  {
    var m := MaxOf(values);
    assert Widths(values)[k] == RelativeWidth(values[k], m);
    RatioAtMostOne(values[k], m);
  }

  // ---------------------------------------------------------------------------------------
  // Fixed tables and pure classification rules

  const SentimentPositive := "positive"
  const SentimentNegative := "negative"

  /** `typeof result === 'string' ? result.toLowerCase().trim() : ''` */
  function SentimentLabel(result: Json): string
  {
    if result.JStr? then JsStr.Trim(JsStr.ToLowerCase(result.s)) else ""
  }

  function SentimentEmoji(sentiment: string): string
  {
    if sentiment == SentimentPositive then "\U{1F60A}"
    else if sentiment == SentimentNegative then "\U{1F61E}"
    else "\U{1F610}"
  }

  function SentimentColour(sentiment: string): string
  {
    if sentiment == SentimentPositive then "text-green-600"
    else if sentiment == SentimentNegative then "text-red-600"
    else "text-gray-600"
  }

  function SentimentOf(result: Json): View
  {
    var sentiment := SentimentLabel(result);
    SentimentView(SentimentEmoji(sentiment), SentimentColour(sentiment), if sentiment != "" then sentiment else "Unknown")
  }

  /** The sentiment view ignores case and surrounding white space of the label: it is the
      same for a string as for its normalised form. */
  lemma SentimentIgnoresCaseAndSpace(s: string)
    ensures SentimentOf(JStr(s)) == SentimentOf(JStr(JsStr.Trim(JsStr.ToLowerCase(s))))
  {
    var l := JsStr.ToLowerCase(s);
    var n := JsStr.Trim(l);
    JsStr.TrimLowerCommute(l);
    JsStr.LowerIdempotent(s);
    Strings.TrimIdempotent(l, JsStr.IsWhiteSpace);
    assert SentimentLabel(JStr(n)) == n;
  }

  /** The three sentiment classes: positive and negative after normalisation, and neutral
      styling for every other string and for any non-string result, shown as `Unknown`. */
  lemma SentimentClasses(result: Json)
    ensures var v := SentimentOf(result);
      var sentiment := SentimentLabel(result);
      && (sentiment == "positive" ==> v == SentimentView("\U{1F60A}", "text-green-600", "positive"))
      && (sentiment == "negative" ==> v == SentimentView("\U{1F61E}", "text-red-600", "negative"))
      && (sentiment != "positive" && sentiment != "negative" ==> v.emoji == "\U{1F610}" && v.colour == "text-gray-600")
      && (!result.JStr? ==> v == SentimentView("\U{1F610}", "text-gray-600", "Unknown"))
  {
  }

  /** An upper-case reply is matched as positive. */
  lemma SentimentUpperCasePositive()
    ensures SentimentOf(JStr("POSITIVE")) == SentimentView("\U{1F60A}", "text-green-600", "positive")
  {
    var l := JsStr.ToLowerCase("POSITIVE");
    assert l == "positive";
    Strings.TrimOfTrimmed(l, JsStr.IsWhiteSpace);
  }

  const DifficultyEasyBadge := "bg-green-100 text-green-800"
  const DifficultyMediumBadge := "bg-yellow-100 text-yellow-800"
  const DifficultyHardBadge := "bg-red-100 text-red-800"

  /** The badge colour of `readability.difficulty_level`, compared with `===`. */
  function DifficultyBadge(level: Option<Json>): (badge: string)
    ensures badge == DifficultyEasyBadge <==> level == Some(JStr("Easy"))
    ensures badge == DifficultyMediumBadge <==> level == Some(JStr("Medium"))
    ensures badge == DifficultyHardBadge <==> level != Some(JStr("Easy")) && level != Some(JStr("Medium"))
  {
    if level == Some(JStr("Easy")) then DifficultyEasyBadge
    else if level == Some(JStr("Medium")) then DifficultyMediumBadge
    else DifficultyHardBadge
  }

  const CategoryColours: map<string, string> := map[
    "people" := "bg-blue-100 text-blue-800",
    "places" := "bg-green-100 text-green-800",
    "organizations" := "bg-purple-100 text-purple-800",
    "dates" := "bg-orange-100 text-orange-800",
    "other" := "bg-gray-100 text-gray-800"]

  const CategoryEmojis: map<string, string> := map[
    "people" := "\U{1F464}",
    "places" := "\U{1F4CD}",
    "organizations" := "\U{1F3E2}",
    "dates" := "\U{1F4C5}",
    "other" := "\U{1F516}"]

  /** `categoryEmojis[category] || "🔖"` */
  function CategoryEmoji(category: string): (r: string)
    ensures r in CategoryEmojis.Values
    ensures r == CategoryEmojis["other"] <==> category !in CategoryEmojis || category == "other"
    ensures category in CategoryEmojis ==> r == CategoryEmojis[category]
  {
    assert CategoryEmojis["other"] == "\U{1F516}";
    if category in CategoryEmojis then CategoryEmojis[category] else "\U{1F516}"
  }

  /** `categoryColors[category] || categoryColors.other` */
  function CategoryColour(category: string): (r: string)
    ensures r in CategoryColours.Values
    ensures r == CategoryColours["other"] <==> category !in CategoryColours || category == "other"
    ensures category in CategoryColours ==> r == CategoryColours[category]
  {
    if category in CategoryColours then CategoryColours[category] else CategoryColours["other"]
  }

  /** `value || 0` */
  function OrZero(v: Option<Json>): (r: Json)
    ensures r == JNum(0.0) <==> !Truthy(v)
    ensures Truthy(v) ==> r == v.value
  {
    if Truthy(v) then v.value else JNum(0.0)
  }

  const EmotionIcons: map<string, string> := map[
    "joy" := "\U{1F604}",
    "sadness" := "\U{1F622}",
    "anger" := "\U{1F620}",
    "fear" := "\U{1F628}",
    "surprise" := "\U{1F632}",
    "neutral" := "\U{1F610}"]

  /** `emotionIcons[emotion]`, which is `undefined` (and renders nothing) for an unknown key. */
  function EmotionIcon(emotion: string): (r: Option<string>)
    ensures r.Some? <==> emotion in EmotionIcons
  {
    if emotion in EmotionIcons then Some(EmotionIcons[emotion]) else None
  }

  // ---------------------------------------------------------------------------------------
  // Captions of executing calls

  /** Characters of `args.sentence` quoted by the sentiment caption. */
  const SentenceQuoteLimit: nat := 50

  /** The sentiment caption; None when a truthy `sentence` is not a string and
      `.substring` throws. A string sentence is quoted through its first 50 characters. */
  function SentimentCaption(args: Args): (r: Option<Caption>)
    ensures !Truthy(Lookup(args, "sentence")) ==> r == Some(Caption("Analyzing sentiment...", None, ""))
    ensures Truthy(Lookup(args, "sentence")) ==> (r.None? <==> !Lookup(args, "sentence").value.JStr?)
    ensures r.Some? && Truthy(Lookup(args, "sentence")) ==>
      var s := Lookup(args, "sentence").value.s;
      && r.value.before == "Analyzing sentiment of: \"" && r.value.after == "...\""
      && r.value.shown.Some? && r.value.shown.value.JStr?
      && var quoted := r.value.shown.value.s;
         && quoted != [] && quoted <= s && |quoted| <= SentenceQuoteLimit
         && (|s| <= SentenceQuoteLimit ==> quoted == s)
         && (|s| > SentenceQuoteLimit ==> |quoted| == SentenceQuoteLimit)
  {
    var sentence := Lookup(args, "sentence");
    if !Truthy(sentence) then Some(Caption("Analyzing sentiment...", None, ""))
    else if sentence.value.JStr? then
      Some(Caption("Analyzing sentiment of: \"", Some(JStr(Strings.Take(sentence.value.s, SentenceQuoteLimit))), "...\""))
    else None
  }

  function CaptionFor(tool: RenderTool, args: Args): Option<Caption>
  {
    match tool
    case BarChatData => Some(Caption("Creating bar chart: ", Lookup(args, "title"), "..."))
    case ScatterPlotData => Some(Caption("Creating scatter plot: ", Lookup(args, "title"), "..."))
    case SentimentAnalysis => SentimentCaption(args)
    case ExtractKeywords => Some(Caption("Extracting keywords from text...", None, ""))
    case DetectEmotions => Some(Caption("Detecting emotions in text...", None, ""))
    case ExtractEntities => Some(Caption("Extracting named entities from text...", None, ""))
    case AnalyzeReadability => Some(Caption("Analyzing text readability...", None, ""))
    case WordFrequency => Some(Caption("Analyzing word frequency...", None, ""))
  }

  // ---------------------------------------------------------------------------------------
  // Full views of completed calls; None where the callback throws

  predicate AllNumbers(entries: seq<(string, Json)>)
  {
    forall k :: 0 <= k < |entries| ==> entries[k].1.JNum?
  }

  function Numbers(entries: seq<(string, Json)>): (r: seq<real>)
    requires AllNumbers(entries)
    ensures |r| == |entries| && forall k :: 0 <= k < |r| ==> entries[k].1 == JNum(r[k])
  {
    seq(|entries|, k requires 0 <= k < |entries| => entries[k].1.n)
  }

  /** The bar chart; `Object.values` of a nullish `data` and `toFixed` of a non-number throw. */
  function BarChartOf(result: Json): Option<View>
  {
    var data := Get(result, "data");
    if Nullish(data) then None
    else
      var entries := Entries(data.value);
      if !AllNumbers(entries) then None
      else
        var values := Numbers(entries);
        var widths := Widths(values);
        Some(BarChartView(Get(result, "title"), Get(result, "summary"),
                          seq(|entries|, k requires 0 <= k < |entries| => Bar(entries[k].0, values[k], widths[k])),
                          Get(result, "x_label"), Get(result, "y_label")))
  }

  /** The scatter plot; reading `days` or `.length` through a nullish value, or spreading a
      `tips` that is not iterable, throws. */
  function ScatterPlotOf(result: Json): Option<View>
  {
    var data := Get(result, "data");
    if Nullish(data) then None
    else
      var days := Get(data.value, "days");
      var tips := Get(data.value, "tips");
      if Nullish(days) || !(tips.Some? && (tips.value.JArr? || tips.value.JStr?)) then None
      else
        Some(ScatterPlotView(Get(result, "title"), Get(result, "summary"), Length(days.value),
                             Get(result, "x_label"), Get(result, "y_label")))
  }

  /** One badge per key of the result, in order, with its score as given. */
  function KeywordsOf(result: Json): (v: View)
    ensures v.KeywordsView? && |v.keywords| == |Entries(result)|
    ensures forall k :: 0 <= k < |v.keywords| ==> v.keywords[k] == Keyword(Entries(result)[k].0, Entries(result)[k].1)
  {
    var entries := Entries(result);
    KeywordsView(seq(|entries|, k requires 0 <= k < |entries| => Keyword(entries[k].0, entries[k].1)))
  }

  /** One row per emotion key: its icon if it has one, its capitalised key, its score. */
  function EmotionsOf(result: Json): (v: View)
    ensures v.EmotionsView? && |v.rows| == |Entries(result)|
    ensures forall k :: 0 <= k < |v.rows| ==>
      var (emotion, score) := Entries(result)[k];
      v.rows[k] == EmotionRow(EmotionIcon(emotion), JsStr.Capitalize(emotion), score)
  {
    var entries := Entries(result);
    EmotionsView(seq(|entries|, k requires 0 <= k < |entries| =>
      EmotionRow(EmotionIcon(entries[k].0), JsStr.Capitalize(entries[k].0), entries[k].1)))
  }

  /** `items && items.length > 0`: whether the category renders anything. */
  predicate NonEmptyItems(items: Json)
  {
    Truthy(Some(items)) && Positive(Length(items))
  }

  /** A category that renders a group: a non-empty list, which `items.map` accepts. */
  predicate ShowsGroup(items: Json)
  {
    NonEmptyItems(items) && items.JArr?
  }

  /** A category that passes the length test but has no `map` method (a non-empty string, an
      object whose `length` member is positive), so `items.map` throws. */
  predicate BreaksGroup(items: Json)
  {
    NonEmptyItems(items) && !items.JArr?
  }

  /** A list shows a group exactly when it is not empty. */
  lemma ShowsGroupOfList(items: seq<Json>)
    ensures ShowsGroup(JArr(items)) <==> items != []
  {
  }

  function GroupFor(entry: (string, Json)): EntityGroup
    requires entry.1.JArr?
  {
    EntityGroup(CategoryEmoji(entry.0), entry.0, CategoryColour(entry.0), entry.1.items)
  }

  /** The positions from `lo` on of the categories that render a group, in increasing
      order: exactly the positions whose list is not empty, each once. */
  function ShownIndices(entries: seq<(string, Json)>, lo: nat): (ix: seq<nat>)
    requires lo <= |entries|
    ensures forall i :: 0 <= i < |ix| ==> lo <= ix[i] < |entries| && ShowsGroup(entries[ix[i]].1)
    ensures forall i, j :: 0 <= i < j < |ix| ==> ix[i] < ix[j]
    ensures forall k :: lo <= k < |entries| && ShowsGroup(entries[k].1) ==> k in ix
    decreases |entries| - lo
  {
    if lo == |entries| then []
    else
      var rest := ShownIndices(entries, lo + 1);
      if ShowsGroup(entries[lo].1) then [lo] + rest else rest
  }

  /** The groups of the categories from `lo` on, one per category with a non-empty list, in
      `Object.entries` order; None when one of them throws. */
  function GroupsOf(entries: seq<(string, Json)>, lo: nat): (r: Option<seq<EntityGroup>>)
    requires lo <= |entries|
    ensures r.None? <==> exists k :: lo <= k < |entries| && BreaksGroup(entries[k].1)
    ensures r.Some? ==>
      var ix := ShownIndices(entries, lo);
      |r.value| == |ix| && forall i :: 0 <= i < |ix| ==> r.value[i] == GroupFor(entries[ix[i]])
    decreases |entries| - lo
  {
    if lo == |entries| then Some([])
    else
      var rest := GroupsOf(entries, lo + 1);
      if BreaksGroup(entries[lo].1) then None
      else if rest.None? then None
      else if ShowsGroup(entries[lo].1) then Some([GroupFor(entries[lo])] + rest.value)
      else rest
  }

  /** The entities view: counts defaulting to 0, then the category groups. */
  function EntitiesOf(result: Json): Option<View>
  {
    var total := OrZero(Get(result, "total_entities"));
    var unique := OrZero(Get(result, "unique_entities"));
    var byType := Get(result, "entities_by_type");
    if !Truthy(byType) then Some(EntitiesView(total, unique, Omitted(byType)))
    else
      match GroupsOf(Entries(byType.value), 0)
      case None => None
      case Some(groups) => Some(EntitiesView(total, unique, Groups(groups)))
  }

  function ReadabilityOf(result: Json): View
  {
    ReadabilityView(Get(result, "word_count"), Get(result, "sentence_count"),
                    Get(result, "avg_word_length"), Get(result, "avg_sentence_length"),
                    Get(result, "readability_score"), Get(result, "difficulty_level"),
                    DifficultyBadge(Get(result, "difficulty_level")))
  }

  /** Word-frequency bars; widths are given when every count is a number. */
  function WordFrequencyOf(result: Json): (v: View)
    ensures v.WordFrequencyView? && |v.words| == |Entries(result)|
    ensures forall k :: 0 <= k < |v.words| ==> v.words[k] == WordBar(Entries(result)[k].0, Entries(result)[k].1)
    ensures v.widths.Some? <==> AllNumbers(Entries(result))
    ensures v.widths.Some? ==> v.widths.value == Widths(Numbers(Entries(result)))
  {
    var entries := Entries(result);
    WordFrequencyView(seq(|entries|, k requires 0 <= k < |entries| => WordBar(entries[k].0, entries[k].1)),
                      if AllNumbers(entries) then Some(Widths(Numbers(entries))) else None)
  }

  function ViewFor(tool: RenderTool, result: Json): Option<View>
  {
    match tool
    case BarChatData => BarChartOf(result)
    case ScatterPlotData => ScatterPlotOf(result)
    case SentimentAnalysis => Some(SentimentOf(result))
    case ExtractKeywords => Some(KeywordsOf(result))
    case DetectEmotions => Some(EmotionsOf(result))
    case ExtractEntities => EntitiesOf(result)
    case AnalyzeReadability => Some(ReadabilityOf(result))
    case WordFrequency => Some(WordFrequencyOf(result))
  }

  // ---------------------------------------------------------------------------------------
  // The callbacks

  /** `if (status === "executing") ...; if (status === "complete" && result) ...; return null` */
  function RenderCall(tool: RenderTool, status: Status, args: Args, result: Option<Json>): (r: Outcome)
    ensures status == Executing ==> r.Progress? || r.Throws?
    ensures status == Complete && Truthy(result) ==> r.Full? || r.Throws?
    ensures status != Executing && !(status == Complete && Truthy(result)) ==> r == Nothing
    ensures r.Full? ==> Some(r.view) == ViewFor(tool, result.value)
    ensures r.Progress? ==> Some(r.caption) == CaptionFor(tool, args)
  {
    if status == Executing then
      match CaptionFor(tool, args)
      case Some(c) => Progress(c)
      case None => Throws
    else if status == Complete && Truthy(result) then
      match ViewFor(tool, result.value)
      case Some(v) => Full(v)
      case None => Throws
    else Nothing
  }

  /** Only the sentiment caption can throw; every other executing call shows its caption. */
  lemma ExecutingShowsCaption(tool: RenderTool, args: Args, result: Option<Json>)
    requires tool != SentimentAnalysis || !Truthy(Lookup(args, "sentence")) || Lookup(args, "sentence").value.JStr?
    ensures RenderCall(tool, Executing, args, result).Progress?
  {
  }

  /** The callbacks that read no field without a guard never throw on a completed call. */
  lemma CompleteShowsView(tool: RenderTool, args: Args, result: Option<Json>)
    requires tool in {SentimentAnalysis, ExtractKeywords, DetectEmotions, AnalyzeReadability, WordFrequency}
    requires Truthy(result)
    ensures RenderCall(tool, Complete, args, result).Full?
  {
  }

  /** The bar chart throws exactly when `data` is nullish or one of its values is not a number. */
  lemma BarChartThrows(args: Args, result: Option<Json>)
    requires Truthy(result)
    ensures var data := Get(result.value, "data");
      RenderCall(BarChatData, Complete, args, result).Throws? <==>
        Nullish(data) || exists k :: 0 <= k < |Entries(data.value)| && !Entries(data.value)[k].1.JNum?
  {
  }

  /** When every value of `data` is a number, bar `k` shows the `k`-th key and value of
      `data` and a width relative to the largest value. */
  lemma BarChartBars(args: Args, result: Option<Json>)
    requires Truthy(result)
    requires var data := Get(result.value, "data"); !Nullish(data) && AllNumbers(Entries(data.value))
    ensures var entries := Entries(Get(result.value, "data").value);
      var r := RenderCall(BarChatData, Complete, args, result);
      && r.Full? && r.view.BarChartView? && |r.view.bars| == |entries|
      && forall k :: 0 <= k < |entries| ==>
           && r.view.bars[k].key == entries[k].0
           && entries[k].1 == JNum(r.view.bars[k].value)
           && r.view.bars[k].width == Widths(Numbers(entries))[k]
  {
  }

  /** The scatter plot throws exactly when `data` or `data.days` is nullish or `data.tips`
      cannot be spread; otherwise it counts the elements of `days`. */
  lemma ScatterPlotThrows(args: Args, result: Option<Json>)
    requires Truthy(result)
    ensures var data := Get(result.value, "data");
      var r := RenderCall(ScatterPlotData, Complete, args, result);
      && (r.Throws? <==>
           || Nullish(data)
           || Nullish(Get(data.value, "days"))
           || !(Get(data.value, "tips").Some? && (Get(data.value, "tips").value.JArr? || Get(data.value, "tips").value.JStr?)))
      && (r.Full? ==> r.view.points == Length(Get(data.value, "days").value))
  {
  }

  /** The entities view throws exactly when a category holds a non-empty string. */
  lemma EntitiesThrows(args: Args, result: Option<Json>)
    requires Truthy(result)
    ensures var byType := Get(result.value, "entities_by_type");
      RenderCall(ExtractEntities, Complete, args, result).Throws? <==>
        Truthy(byType) && exists k :: 0 <= k < |Entries(byType.value)| && BreaksGroup(Entries(byType.value)[k].1)
  {
  }

  /** A count shows 0 exactly when the result's count is falsy (missing, null, false, 0 or
      the empty string); a truthy count is shown as given. */
  lemma EntityCounts(args: Args, result: Option<Json>)
    requires Truthy(result)
    ensures var r := RenderCall(ExtractEntities, Complete, args, result);
      var total := Get(result.value, "total_entities");
      var unique := Get(result.value, "unique_entities");
      r.Full? ==>
        && r.view.EntitiesView?
        && (r.view.total == JNum(0.0) <==> !Truthy(total))
        && (r.view.unique == JNum(0.0) <==> !Truthy(unique))
        && (Truthy(total) ==> r.view.total == total.value)
        && (Truthy(unique) ==> r.view.unique == unique.value)
  {
  }

  /** The entity groups of a completed call: when `entities_by_type` is truthy and no category
      throws, group `i` is the category at the `i`-th position whose list is non-empty, with
      that category's emoji and colour and its entities in order. */
  lemma EntityGroupsShown(args: Args, result: Option<Json>)
    requires Truthy(result)
    requires var byType := Get(result.value, "entities_by_type");
      Truthy(byType) && forall k :: 0 <= k < |Entries(byType.value)| ==> !BreaksGroup(Entries(byType.value)[k].1)
    ensures var entries := Entries(Get(result.value, "entities_by_type").value);
      var r := RenderCall(ExtractEntities, Complete, args, result);
      var ix := ShownIndices(entries, 0);
      && r.Full? && r.view.EntitiesView? && r.view.section.Groups?
      && |r.view.section.groups| == |ix|
      && forall i :: 0 <= i < |ix| ==>
           var g := r.view.section.groups[i];
           && g.category == entries[ix[i]].0
           && JArr(g.items) == entries[ix[i]].1 && g.items != []
           && g.emoji == CategoryEmoji(g.category) && g.colour == CategoryColour(g.category)
  {
  }

  /** For an object with distinct keys, the keyword badges are exactly its members: a badge
      shows a word and a score exactly when the result maps that word to that score. */
  lemma KeywordBadges(members: seq<(string, Json)>)
    requires DistinctKeys(members)
    ensures var v := KeywordsOf(JObj(members));
      forall word, score :: Keyword(word, score) in v.keywords <==> Lookup(members, word) == Some(score)
  {
    var v := KeywordsOf(JObj(members));
    forall word, score ensures Keyword(word, score) in v.keywords <==> Lookup(members, word) == Some(score) {
      if Keyword(word, score) in v.keywords {
        var k :| 0 <= k < |v.keywords| && v.keywords[k] == Keyword(word, score);
        LookupDistinct(members, k);
      }
      if Lookup(members, word) == Some(score) {
        var k :| 0 <= k < |members| && members[k] == (word, score);
        assert v.keywords[k] == Keyword(word, score);
      }
    }
  }

  /** For an object with distinct keys, every emotion gets a row with its score and its
      capitalised name, and an icon exactly when it is a known emotion; every row comes from
      such an emotion. */
  lemma EmotionRows(members: seq<(string, Json)>)
    requires DistinctKeys(members)
    ensures var v := EmotionsOf(JObj(members));
      && (forall emotion, score :: Lookup(members, emotion) == Some(score) ==>
            EmotionRow(EmotionIcon(emotion), JsStr.Capitalize(emotion), score) in v.rows)
      && (forall row :: row in v.rows ==>
            exists emotion :: && Lookup(members, emotion) == Some(row.score)
                              && row.name == JsStr.Capitalize(emotion)
                              && (row.icon.Some? <==> emotion in EmotionIcons))
  {
    var v := EmotionsOf(JObj(members));
    forall emotion, score | Lookup(members, emotion) == Some(score)
      ensures EmotionRow(EmotionIcon(emotion), JsStr.Capitalize(emotion), score) in v.rows
    {
      var k :| 0 <= k < |members| && members[k] == (emotion, score);
      assert v.rows[k] == EmotionRow(EmotionIcon(emotion), JsStr.Capitalize(emotion), score);
    }
    forall row | row in v.rows
      ensures exists emotion :: && Lookup(members, emotion) == Some(row.score)
                                && row.name == JsStr.Capitalize(emotion)
                                && (row.icon.Some? <==> emotion in EmotionIcons)
    {
      var k :| 0 <= k < |v.rows| && v.rows[k] == row;
      LookupDistinct(members, k);
    }
  }

  /** Word-frequency widths: with numeric, non-negative counts and a positive maximum, each
      width is count / max × 100, lies in [0, 100], and is exactly 100 for the largest count. */
  lemma WordFrequencyWidths(args: Args, result: Option<Json>, k: nat)
    requires Truthy(result)
    requires var e := Entries(result.value);
      && k < |e| && AllNumbers(e)
      && (forall i :: 0 <= i < |e| ==> e[i].1.n >= 0.0)
      && MaxOf(Numbers(e)) > 0.0
    ensures var e := Entries(result.value);
      var m := MaxOf(Numbers(e));
      var r := RenderCall(WordFrequency, Complete, args, result);
      && r.Full? && r.view.WordFrequencyView? && r.view.widths.Some?
      && r.view.widths.value[k] == Percent(e[k].1.n / m * 100.0)
      && 0.0 <= r.view.widths.value[k].p <= 100.0
      && (e[k].1.n == m ==> r.view.widths.value[k] == Percent(100.0))
  {
    var values := Numbers(Entries(result.value));
    WidthsWithinRange(values, k);
    if values[k] == MaxOf(values) {
      WidthOfMaximum(values, k);
    }
  }

  // ---------------------------------------------------------------------------------------
  // Worked examples

  /** Two days of tips, the second twice the first: the larger is the full bar, the smaller
      half of it. */
  lemma HalfAndFull(values: seq<real>)
    requires values == [10.0, 20.0]
    ensures Widths(values) == [Percent(50.0), Percent(100.0)]
  {
    assert MaxOf(values) == 20.0;
    RatioOfSelf(20.0);
  }

  /** No entities: both counts show 0 and there is no group. */
  lemma NoEntities()
    ensures
      var result := JObj([("total_entities", JNum(0.0)), ("unique_entities", JNum(0.0)),
                          ("entities_by_type", JObj([]))]);
      RenderCall(ExtractEntities, Complete, [], Some(result))
        == Full(EntitiesView(JNum(0.0), JNum(0.0), Groups([])))
  {
  }

  /** A single word is one full bar. */
  lemma SingleWordIsFullBar()
    ensures RenderCall(WordFrequency, Complete, [], Some(JObj([("hello", JNum(5.0))])))
      == Full(WordFrequencyView([WordBar("hello", JNum(5.0))], Some([Percent(100.0)])))
  {
    var entries := Entries(JObj([("hello", JNum(5.0))]));
    assert AllNumbers(entries);
    assert Numbers(entries) == [5.0];
    RatioOfSelf(5.0);
    assert Widths([5.0]) == [Percent(100.0)];
    var bars := seq(|entries|, k requires 0 <= k < |entries| => WordBar(entries[k].0, entries[k].1));
    assert bars == [WordBar("hello", JNum(5.0))];
  }

  /** An emotion without an icon still gets its capitalised row. */
  lemma UnknownEmotionStillShown()
    ensures RenderCall(DetectEmotions, Complete, [], Some(JObj([("curiosity", JNum(0.4))])))
      == Full(EmotionsView([EmotionRow(None, "Curiosity", JNum(0.4))]))
  {
    assert "curiosity" !in EmotionIcons;
    assert JsStr.Capitalize("curiosity") == "Curiosity";
  }
}
