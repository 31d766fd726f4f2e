# Text-analysis copilot: reply cleaning, entity aggregation and tool-call rendering

The system is a chat copilot. A Python agent exposes text-analysis tools. Five of them
(keywords, emotions, entities, readability, word frequency) ask a language model for a JSON
object. A React page renders the result of every tool call as a card.

This project models three parts of that system:

- **The reply pipeline of the AI-backed tools** (`agent.dfy`), modelled from the moment the
  reply text is available:
  - strip the reply;
  - when it starts with a code fence, keep what lies between its first and last newline;
  - drop a leading `json` tag and strip again;
  - parse the text as JSON;
  - on any error, fall back to the tool's error object, which keeps the first 100
    characters of the raw reply.

  `extract_entities` also concatenates every category list. It reports the total count, the
  number of distinct entities (after Python's set semantics, where `True == 1 == 1.0`) and
  the first 15 entities. That loop is the method `Agent.ExtractEntities`, proved equal to the
  functional specification `Agent.RunTool`.
- **The `change_background` frontend tool** (`background.dfy`): a page object whose
  background starts at `#6366f1`. Its handler replaces the background and returns a
  confirmation message.
- **The render callbacks** (`render.dfy`): each callback maps a status, the tool's arguments
  and its result to one of four outcomes:
  - nothing;
  - a progress caption;
  - a full view;
  - a thrown TypeError, for the inputs on which the callback's own property reads or method
    calls fail.

  The model fixes what each card shows: the bar and word widths relative to the maximum, the
  sentiment classes, the emotion icons, the entity groups with their colour and emoji
  fallbacks, and the readability badge.

Supporting modules:

- `json.dfy`: one JSON value type, used both for what `json.loads` returns and for what
  reaches the page.
- `strings.dfy`: trimming, parameterised by the set of white-space characters, and the clamped prefix
  shared by Python's `[:n]` and JavaScript's `substring(0, n)`.
- `pystr.dfy`: Python's `strip` and the one-time splits.
- `jsstr.dfy`: JavaScript's `trim`, `toLowerCase` and first-letter capitalisation.
- `jsvalue.dfy`: JavaScript truthiness, property lookup, `Object.entries` and `.length`.

`json.loads` is a parameter (`parse`) of the pipeline: the model does not fix how JSON
text is parsed, only what happens when parsing fails or succeeds.

## Model

| member | source | states |
|---|---|---|
| Agent.Cleaned | agent.py:143-148 | A reply without a leading fence is only stripped; cleaning fails (the `[1]` index raises) exactly when the stripped reply starts with a fence and has no newline |
| Agent.FencedWithClosingLine | agent.py:145-148 | With at least two newlines, the text kept is what lies strictly between the first and the last newline; a leading `json` is then cut off and the rest stripped |
| Agent.FencedSingleNewline | agent.py:145-148 | With exactly one newline, everything after it is kept, and a leading `json` is cut off and the rest stripped |
| Agent.FenceWithTagOnOpeningLine | agent.py:143-150 | A reply fenced as `json` on its opening line cleans to the bare object text |
| Agent.UnfencedJsonTagKept | agent.py:143-148 | The `json` tag is removed only inside a fence: an unfenced reply that starts with `json` keeps it |
| Agent.RunTool | agent.py:140-346 | A tool falls back if and only if cleaning fails, `json.loads` fails, or (for entities) the aggregation raises; otherwise it returns the parsed value (entities: its aggregate). A fallback carries the tool's own message (`Could not extract keywords`, `Could not detect emotions`, `Could not analyze readability`, `Could not analyze word frequency`, `Could not extract entities`) and the reply's first min(100, length) characters; a fenced reply without a newline always falls back |
| Agent.ExtractEntities | agent.py:230-253 | The loop that extends the entity list over the category values returns exactly the specified reply: the aggregate on success, the `Could not extract entities` fallback on any failure |
| Agent.Iterated | agent.py:243-244 | `extend` fails exactly on values that are not iterable (numbers, booleans, null); a list contributes its items |
| Agent.ExtendedLists | agent.py:242-244 | When every category value is a list, the entity list is their concatenation in order, and its length is the sum of their lengths |
| Agent.ExtendedFails | agent.py:242-244 | The extending loop fails exactly when some category value is not iterable |
| Agent.DistinctCountBounds | agent.py:248-249 | The number of distinct entities is at most the total, and at least one when there is any entity |
| Agent.AggregateOfLists | agent.py:246-251 | For a dict of lists of hashable entities, the result holds the dict, the total, the distinct count and the first 15 entities, and the distinct count never exceeds the total |
| Agent.AggregateFails | agent.py:239-253 | The entity tool falls back exactly when the parsed value is not a dict, a category is not iterable, or an entity is unhashable (a list or dict) |
| Strings.Trim | agent.py:143 | The result is an infix that neither starts nor ends with white space, and everything cut off on either side is white space |
| Strings.TrimIdempotent | frontend/app/page.tsx:149 | Trimming an already trimmed text changes nothing |
| PyStr.IndexOf | agent.py:146 | The position of the first newline, or the length when there is none |
| PyStr.LastIndexOf | agent.py:146 | The position of the last newline, or -1 when there is none |
| PyStr.SplitOnceTail | agent.py:146 | `split('\n', 1)[1]` fails exactly when there is no newline |
| PyStr.RsplitOnceHead | agent.py:146 | `rsplit('\n', 1)[0]` returns the whole text when there is no newline |
| Strings.Take | agent.py:154 | `[:100]` has length min(100, length) and is a prefix; `substring(0, 50)` in the sentiment caption is the same clamped prefix |
| Background.Page.constructor | frontend/app/page.tsx:20 | The background starts as `#6366f1` |
| Background.Page.ChangeBackground | frontend/app/page.tsx:34-37 | The background becomes the new value, and the message is `Background changed to ` followed by it |
| Background.TwoChanges | frontend/app/page.tsx:34-37 | Two changes in a row leave the second value, and each returns its own confirmation |
| Render.ToolNamed | frontend/app/page.tsx:41-42 | A registered name resolves to the callback that bears that name |
| Render.ToolNamedThenName | frontend/app/page.tsx:41-42 | Every callback is found again under its own name |
| Render.RenderCall | frontend/app/page.tsx:43-88 | `executing` gives a caption (or a throw), `complete` with a truthy result gives the callback's view (or a throw), and every other case renders nothing |
| Render.ExecutingShowsCaption | frontend/app/page.tsx:44-52 | An executing call always shows its caption, except the sentiment caption when a truthy `sentence` is not a string |
| Render.CompleteShowsView | frontend/app/page.tsx:136-461 | The sentiment, keywords, emotions, readability and word-frequency callbacks never throw on a completed call with a truthy result |
| Render.MaxOf | frontend/app/page.tsx:56 | `Math.max` of the values is one of them and bounds them all |
| Render.WidthOfMaximum | frontend/app/page.tsx:56-70 | The largest non-zero bar is drawn at exactly 100% |
| Render.WidthsWithinRange | frontend/app/page.tsx:433-448 | With non-negative values and a positive maximum, every width lies between 0% and 100% |
| Render.HalfAndFull | frontend/app/page.tsx:56-70 | Values 10 and 20 give widths of 50% and 100% |
| Render.BarChartThrows | frontend/app/page.tsx:54-79 | The bar chart throws exactly when `data` is nullish or one of its values is not a number (`toFixed`) |
| Render.BarChartBars | frontend/app/page.tsx:54-79 | Bar k shows the k-th key and value of `data`, with a width relative to the largest value |
| Render.ScatterPlotThrows | frontend/app/page.tsx:106-127 | The scatter plot throws exactly when `data` or `data.days` is nullish or `data.tips` cannot be spread; otherwise it shows `days.length`: the element count of a list, the length of a string, the `length` member of an object |
| Render.SentimentCaption | frontend/app/page.tsx:142 | Without a truthy sentence the caption is `Analyzing sentiment...`; a truthy non-string sentence throws; a string sentence is quoted by a non-empty prefix of at most 50 characters, which is the whole sentence when it has at most 50 and exactly 50 characters otherwise |
| Render.SentimentClasses | frontend/app/page.tsx:149-162 | `positive` and `negative` get their emoji and colour; every other string gets the neutral style, and a non-string result shows `Unknown` |
| Render.SentimentIgnoresCaseAndSpace | frontend/app/page.tsx:149 | The sentiment card depends only on the lower-cased, trimmed string |
| Render.SentimentUpperCasePositive | frontend/app/page.tsx:149-151 | `POSITIVE` is shown as positive |
| JsStr.ToLowerCase | frontend/app/page.tsx:149 | Lower-casing keeps the length and maps each character |
| JsStr.TrimLowerCommute | frontend/app/page.tsx:149 | Trimming and lower-casing commute |
| JsStr.LowerIdempotent | frontend/app/page.tsx:149 | Lower-casing twice is lower-casing once |
| JsStr.Capitalize | frontend/app/page.tsx:250 | Only the first character can change, the result never starts with a lower-case letter, and the label is left unchanged exactly when it is empty or does not start with a lower-case letter |
| JsStr.CapitalizeIdempotent | frontend/app/page.tsx:250 | Capitalising a label twice is capitalising it once |
| Render.KeywordBadges | frontend/app/page.tsx:188-207 | For a result object with distinct keys, a badge shows a word and a score exactly when the result maps that word to that score |
| Render.EmotionRows | frontend/app/page.tsx:247-264 | For a result object with distinct keys, every emotion gets a row with its score and capitalised name, with an icon exactly when it is a known emotion, and every row comes from such an emotion |
| Render.UnknownEmotionStillShown | frontend/app/page.tsx:232-250 | An emotion without an icon still gets its capitalised row |
| Render.EntityCounts | frontend/app/page.tsx:313-317 | On the entities card a count shows 0 exactly when the result's count is falsy (missing, null, false, 0, empty string), and a truthy count is shown as given |
| Render.CategoryEmoji | frontend/app/page.tsx:297-325 | The emoji is always one of the five table emojis; it is the `other` emoji 🔖 exactly when the category is unknown or is `other`, and a known category gets its own |
| Render.CategoryColour | frontend/app/page.tsx:290-331 | The colour is always one of the five table colours; it is the `other` colour exactly when the category is unknown or is `other`, and a known category gets its own |
| Render.GroupsOf | frontend/app/page.tsx:321-339 | Throws exactly when some category value passes `items && items.length > 0` but is not a list; otherwise group i is the category at the i-th position (in `Object.entries` order) whose list is non-empty, with its emoji, colour and entities |
| Render.ShownIndices | frontend/app/page.tsx:321-322 | The positions of the categories that render a group are strictly increasing and are exactly the positions whose value is a non-empty list |
| Render.EntityGroupsShown | frontend/app/page.tsx:319-339 | When no category throws, the completed entities card shows one group per non-empty category list, in order, with that category's emoji, colour and entities |
| Render.EntitiesThrows | frontend/app/page.tsx:319-339 | The entities card throws exactly when `entities_by_type` is truthy and some category value passes the length test without being a list (a non-empty string, an object whose `length` member is positive) |
| Render.NoEntities | frontend/app/page.tsx:305-341 | Zero counts and an empty category object make a card with two zeros and no group |
| Render.DifficultyBadge | frontend/app/page.tsx:396-402 | `Easy` gets the green badge, `Medium` the yellow one, and everything else the red one, each if and only if |
| Render.WordFrequencyOf | frontend/app/page.tsx:431-455 | One bar per word, in order, with its count as given; widths are present exactly when every count is a number, and then they are the widths relative to the largest count |
| Render.WordFrequencyWidths | frontend/app/page.tsx:433-448 | With numeric, non-negative counts and a positive maximum, each word's width is count / max × 100, lies in [0, 100], and is exactly 100 for the largest count |
| Render.SingleWordIsFullBar | frontend/app/page.tsx:431-457 | A single word is one bar at 100% |
| JsValue.Lookup | frontend/app/page.tsx:55-56 | A property is found exactly when some member bears its name, and then it is that member's value |
| JsValue.LookupFirst | frontend/app/page.tsx:55-56 | The member found is the first one with that name |
| JsValue.Entries | frontend/app/page.tsx:63 | `Object.entries` of an object is its members in order; of an array, its items under the keys `0`, `1`, ...; of a string, its characters under the same keys; of a primitive, nothing |

## Left out

- The language-model calls, the API key and `response.text` are not modelled. The pipeline starts from the reply text, and a `None` text is not modelled.
- How `json.loads` parses text is not modelled; it is the parameter `parse`. JSON objects are assumed to have distinct keys.
- `NaN` and `Infinity` in JSON are not modelled.
- The pandas tools `bar_chat_data` and `scatter_plot_data`, `data_visualization.py` and `sentiment_analysis.py` are not part of this model, and nor is the agent and server wiring.
- `sentiment_analysis` returns the raw reply without the pipeline, so it has no Python model. The page side models only the string that reaches the card.
- The Python `change_background` tool is not modelled: it does nothing and returns nothing.
- The CopilotKit hooks are not modelled, nor their parameter schemas (page.tsx:23-33).
- React's asynchronous state update, JSX markup, CSS and transitions are not modelled. A state change is modelled as immediate.
- A `change_background` call without its required argument is not modelled.
- Floating-point arithmetic and number formatting (`toFixed`, the emotion percentages) are not modelled. Widths are exact rationals; `Width.NonFinite` stands for the `NaN`/`Infinity` width of a zero maximum.
- The scatter plot's tip range (`Math.min`/`Math.max` of the tips) is not modelled.
- Render.WordFrequencyOf: computes widths only when every count is a number. JavaScript's `Number` coercion of strings and other values is not modelled.
- Render.GroupsOf: `items.length > 0` is decided for a numeric or boolean `length`; a `length` member that is a string or a list is taken as not positive, because JavaScript's string-to-number coercion is not modelled.
- Render.EntitiesThrows: inherits that gap: an object category whose `length` member is a string of a positive number is taken as showing nothing rather than throwing.
- React's error on a plain object used as a child is not modelled, and nor is the error boundary around the callbacks.
- Record keys inherited from `Object.prototype` (such as `constructor` in the colour and emoji tables) are not modelled.
- The integer-key-first ordering of `Object.entries` is not modelled; entries keep member order.
- Case mapping covers ASCII letters only. Strings are sequences of characters, not UTF-16 code units, so `substring` and `charAt` count characters.
- The code has no guard for a zero maximum, no clamping of emotion scores, no error card and no catching of exceptions thrown by a callback. The model has none either.
