/** The post-processing that the AI-backed tools of agent.py apply to a model reply: the
    code-fence unwrapping in front of `json.loads`, the error fallback dictionary, and the
    aggregation `extract_entities` performs on the parsed categories. The model's reply is an
    input, and `json.loads` is the opaque partial function `parse` (None when it raises). */
module Agent {
  import opened Wrappers
  import opened JsonValue
  import PyStr
  import Strings

  const Fence := "```"
  const JsonTag := "json"
  /** Length of the `raw_response` prefix kept in a fallback dictionary. */
  const RawResponseLimit: nat := 100
  /** Number of entities listed under `entities_found`. */
  const EntitiesFoundLimit: nat := 15

  /** The text handed to `json.loads`, or None when `split('\n', 1)[1]` raises IndexError. */
  function Cleaned(reply: string): (r: Option<string>)
    ensures !(Fence <= PyStr.Strip(reply)) ==> r == Some(PyStr.Strip(reply))
    ensures r.None? <==> Fence <= PyStr.Strip(reply) && '\n' !in PyStr.Strip(reply)
  {
    var text := PyStr.Strip(reply);
    if !(Fence <= text) then Some(text)
    else
      match PyStr.SplitOnceTail(text, '\n')
      case None => None
      case Some(rest) =>
        var body := PyStr.RsplitOnceHead(rest, '\n');
        Some(if JsonTag <= body then PyStr.Strip(body[|JsonTag|..]) else body)
  }

  /** The two splits of the fenced branch keep exactly the text between the first and the
      last newline. */
  lemma BetweenFirstAndLastNewline(t: string, i: nat, j: nat)
    requires i < j < |t| && t[i] == '\n' && t[j] == '\n' && '\n' !in t[..i] && '\n' !in t[j + 1..]
    ensures PyStr.SplitOnceTail(t, '\n') == Some(t[i + 1..])
    ensures PyStr.RsplitOnceHead(t[i + 1..], '\n') == t[i + 1..j]
  {
    PyStr.IndexOfIs(t, '\n', i);
    var rest := t[i + 1..];
    var k := j - i - 1;
    assert rest[k] == '\n';
    assert rest[k + 1..] == t[j + 1..];
    PyStr.LastIndexOfIs(rest, '\n', k);
  }

  /** A fenced reply with an opening line and a closing line: the opening line up to its
      newline and everything from the last newline on are dropped, then a leading `json` tag
      is cut off (exactly four characters) and the rest stripped. */
  lemma FencedWithClosingLine(reply: string, i: nat, j: nat)
    requires
      var t := PyStr.Strip(reply);
      Fence <= t && i < j < |t| && t[i] == '\n' && t[j] == '\n'
      && '\n' !in t[..i] && '\n' !in t[j + 1..]
    ensures
      var body := PyStr.Strip(reply)[i + 1..j];
      Cleaned(reply) == Some(if JsonTag <= body then PyStr.Strip(body[4..]) else body)
  {
    BetweenFirstAndLastNewline(PyStr.Strip(reply), i, j);
  }

  /** A fenced reply with exactly one newline: everything after it is kept whole, then a
      leading `json` tag is cut off and the rest stripped. */
  lemma FencedSingleNewline(reply: string, i: nat)
    requires
      var t := PyStr.Strip(reply);
      Fence <= t && i < |t| && t[i] == '\n' && '\n' !in t[..i] && '\n' !in t[i + 1..]
    ensures
      var body := PyStr.Strip(reply)[i + 1..];
      Cleaned(reply) == Some(if JsonTag <= body then PyStr.Strip(body[4..]) else body)
  {
    var t := PyStr.Strip(reply);
    PyStr.IndexOfIs(t, '\n', i);
  }

  /** The usual shape of a model reply: the `json` tag sits on the opening fence line, which
      is dropped whole, and the closing fence line goes too. */
  lemma FenceWithTagOnOpeningLine(reply: string)
    requires reply == "```json\n{}\n```"
    ensures Cleaned(reply) == Some("{}")
  {
    assert !PyStr.IsSpace(reply[0]) && !PyStr.IsSpace(reply[|reply| - 1]);
    Strings.TrimOfTrimmed(reply, PyStr.IsSpace);
    assert PyStr.Strip(reply) == reply;
    assert reply[..3] == Fence;
    assert reply[..7] == "```json" && reply[11..] == "```";
    assert reply[7] == '\n' && reply[10] == '\n';
    FencedWithClosingLine(reply, 7, 10);
    var body := reply[8..10];
    assert body == "{}";
    assert !(JsonTag <= body);
  }

  /** Without a fence, a leading `json` is kept and reaches the parser. */
  lemma UnfencedJsonTagKept()
    ensures Cleaned(" json {} ") == Some("json {}")
  {
    var s := " json {} ";
    var e := " json {}";
    assert s[..8] == e && PyStr.IsSpace(s[8]) && !PyStr.IsSpace(e[7]);
    assert Strings.TrimEnd(e, PyStr.IsSpace) == e;
    assert Strings.TrimEnd(s, PyStr.IsSpace) == e;
    var r := "json {}";
    assert e[1..] == r && PyStr.IsSpace(e[0]) && !PyStr.IsSpace(r[0]);
    assert Strings.TrimStart(r, PyStr.IsSpace) == r;
    assert Strings.TrimStart(e, PyStr.IsSpace) == r;
    assert PyStr.Strip(s) == r;
    assert r[0] != Fence[0];
  }

  /** The AI-backed tools that run the reply pipeline. */
  datatype AiTool = Keywords | Emotions | Entities | Readability | WordFrequency

  /** The `error` text of each tool's fallback dictionary. */
  function ErrorMessage(tool: AiTool): string
  {
    match tool
    case Keywords => "Could not extract keywords"
    case Emotions => "Could not detect emotions"
    case Entities => "Could not extract entities"
    case Readability => "Could not analyze readability"
    case WordFrequency => "Could not analyze word frequency"
  }

  /** What a tool returns: the parsed (and, for entities, aggregated) value, or the fallback
      dictionary of the bare `except:` clause. */
  datatype ToolReply = Parsed(value: Json) | Fallback(error: string, rawResponse: string)

  /** The fallback for `tool`: its message and `response.text[:100]` (the unstripped reply). */
  function FallbackFor(tool: AiTool, reply: string): ToolReply
  {
    Fallback(ErrorMessage(tool), Strings.Take(reply, RawResponseLimit))
  }

  /** What `list.extend(x)` appends: the items of a list, the one-character strings of a
      string, the keys of a dict; None for a value that is not iterable (TypeError). */
  function Iterated(x: Json): (r: Option<seq<Json>>)
    ensures r.None? <==> !(x.JArr? || x.JStr? || x.JObj?)
    ensures x.JArr? ==> r == Some(x.items)
  {
    match x
    case JArr(items) => Some(items)
    case JStr(s) => Some(seq(|s|, k requires 0 <= k < |s| => JStr([s[k]])))
    case JObj(members) => Some(seq(|members|, k requires 0 <= k < |members| => JStr(members[k].0)))
    case _ => None
  }

  /** `all` after `all.extend(v)` for each `v` of `values` in turn; None once one raises. */
  function Extended(all: seq<Json>, values: seq<Json>): Option<seq<Json>>
    decreases |values|
  {
    if values == [] then Some(all)
    else
      match Iterated(values[0])
      case None => None
      case Some(more) => Extended(all + more, values[1..])
  }

  /** `d.values()` of a dict, in iteration order. */
  function DictValues(members: seq<(string, Json)>): (r: seq<Json>)
    ensures |r| == |members| && forall k :: 0 <= k < |r| ==> r[k] == members[k].1
  {
    seq(|members|, k requires 0 <= k < |members| => members[k].1)
  }

  /** Values a Python `set` accepts: lists and dicts raise TypeError. */
  predicate Hashable(x: Json)
  {
    !x.JArr? && !x.JObj?
  }

  /** The element a Python `set` keeps for `x`: `True == 1 == 1.0` and `False == 0`. */
  function HashKey(x: Json): Json
  {
    match x
    case JBool(b) => JNum(if b then 1.0 else 0.0)
    case _ => x
  }

  /** `len(set(all))` when every element is hashable. */
  function DistinctCount(all: seq<Json>): nat
  {
    |set x | x in all :: HashKey(x)|
  }

  /** The dictionary `extract_entities` builds from the parsed categories, or None when a
      step raises: `.values()` on a non-dict, `extend` on a non-iterable, `set` on an
      unhashable entity. */
  function Aggregate(byType: Json): Option<Json>
  {
    if !byType.JObj? then None
    else
      match Extended([], DictValues(byType.members))
      case None => None
      case Some(all) =>
        if forall x :: x in all ==> Hashable(x) then
          Some(JObj([("entities_by_type", byType),
                     ("total_entities", JNum(|all| as real)),
                     ("unique_entities", JNum(DistinctCount(all) as real)),
                     ("entities_found", JArr(Strings.Take(all, EntitiesFoundLimit)))]))
        else None
  }

  /** The items of a list, and nothing for any other value. */
  function ListItems(v: Json): seq<Json>
  {
    if v.JArr? then v.items else []
  }

  /** The concatenation of the category lists, in iteration order. */
  function Concat(values: seq<Json>): seq<Json>
  {
    if values == [] then [] else ListItems(values[0]) + Concat(values[1..])
  }

  /** The sum of the lengths of the category lists. */
  function SumOfLengths(values: seq<Json>): nat
  {
    if values == [] then 0 else |ListItems(values[0])| + SumOfLengths(values[1..])
  }

  /** When every category is a list, the extend loop concatenates them, and the length of the
      result is the sum of their lengths. */
  lemma {:induction false} ExtendedLists(all: seq<Json>, values: seq<Json>)
    requires forall k :: 0 <= k < |values| ==> values[k].JArr?
    ensures Extended(all, values) == Some(all + Concat(values))
    ensures |Concat(values)| == SumOfLengths(values)
    decreases |values|
  {
    if values != [] {
      var items := values[0].items;
      assert Iterated(values[0]) == Some(items);
      ExtendedLists(all + items, values[1..]);
      assert Extended(all, values) == Extended(all + items, values[1..]);
      assert Concat(values) == items + Concat(values[1..]);
      assert (all + items) + Concat(values[1..]) == all + Concat(values);
    } else {
      assert all + Concat(values) == all;
    }
  }

  /** The extend loop raises exactly when some category value is not iterable. */
  lemma {:induction false} ExtendedFails(all: seq<Json>, values: seq<Json>)
    ensures Extended(all, values).None? <==> exists k :: 0 <= k < |values| && Iterated(values[k]).None?
    decreases |values|
  {
    if values != [] {
      ExtendedFails(all + ListItems(values[0]), values[1..]);
      if Iterated(values[0]).Some? {
        ExtendedFails(all + Iterated(values[0]).value, values[1..]);
        forall k | 0 < k < |values| ensures values[k] == values[1..][k - 1] {
        }
      }
    }
  }

  /** A set built from a list has at most as many elements as the list, and at least one
      when the list is not empty. */
  lemma {:induction false} DistinctCountBounds(all: seq<Json>)
    ensures DistinctCount(all) <= |all|
    ensures all != [] ==> DistinctCount(all) >= 1
    decreases |all|
  {
    if all != [] {
      var rest := all[1..];
      DistinctCountBounds(rest);
      var keys := set x | x in all :: HashKey(x);
      var restKeys := set x | x in rest :: HashKey(x);
      assert keys == restKeys + {HashKey(all[0])};
      assert HashKey(all[0]) in keys;
    }
  }

  /** `extract_entities` on categories that are all lists of hashable entities: the dict
      given back unchanged, the total count as the sum of the list lengths, the distinct count
      at most the total, and the first 15 entities in iteration order. */
  lemma AggregateOfLists(byType: Json)
    requires byType.JObj?
    requires forall k :: 0 <= k < |byType.members| ==> byType.members[k].1.JArr?
    requires forall x :: x in Concat(DictValues(byType.members)) ==> Hashable(x)
    ensures
      var all := Concat(DictValues(byType.members));
      && Aggregate(byType) == Some(JObj([("entities_by_type", byType),
                                         ("total_entities", JNum(SumOfLengths(DictValues(byType.members)) as real)),
                                         ("unique_entities", JNum(DistinctCount(all) as real)),
                                         ("entities_found", JArr(all[..Min(EntitiesFoundLimit, |all|)]))]))
      && DistinctCount(all) <= SumOfLengths(DictValues(byType.members))
  {
    var values := DictValues(byType.members);
    ExtendedLists([], values);
    var all := Concat(values);
    assert [] + all == all;
    assert Strings.Take(all, EntitiesFoundLimit) == all[..Min(EntitiesFoundLimit, |all|)];
    DistinctCountBounds(all);
  }

  /** `extract_entities` raises, and so falls back, exactly when the parsed value is not a
      dict, a category is not iterable, or an entity cannot go into a set. */
  lemma AggregateFails(byType: Json)
    ensures Aggregate(byType).None? <==>
      || !byType.JObj?
      || (exists k :: 0 <= k < |byType.members| && Iterated(byType.members[k].1).None?)
      || (var all := Extended([], DictValues(byType.members));
          all.Some? && exists x :: x in all.value && !Hashable(x))
  {
    if byType.JObj? {
      var values := DictValues(byType.members);
      ExtendedFails([], values);
      if exists k :: 0 <= k < |byType.members| && Iterated(byType.members[k].1).None? {
        var k :| 0 <= k < |byType.members| && Iterated(byType.members[k].1).None?;
        assert Iterated(values[k]).None?;
      }
    }
  }

  /** One AI-backed tool from the moment the reply text is in hand. */
  function RunTool(tool: AiTool, reply: string, parse: string -> Option<Json>): (r: ToolReply)
    ensures r.Fallback? <==>
      || Cleaned(reply).None?
      || parse(Cleaned(reply).value).None?
      || (tool == Entities && Aggregate(parse(Cleaned(reply).value).value).None?)
    ensures r.Fallback? ==> r.error == ErrorMessage(tool)
    ensures r.Fallback? ==> |r.rawResponse| == Min(RawResponseLimit, |reply|) && r.rawResponse <= reply
    ensures Fence <= PyStr.Strip(reply) && '\n' !in PyStr.Strip(reply) ==> r.Fallback?
    ensures r.Parsed? ==> Cleaned(reply).Some? && parse(Cleaned(reply).value).Some?
    ensures r.Parsed? && tool != Entities ==> r.value == parse(Cleaned(reply).value).value
    ensures r.Parsed? && tool == Entities ==> Some(r.value) == Aggregate(parse(Cleaned(reply).value).value)
  {
    match Cleaned(reply)
    case None => FallbackFor(tool, reply)
    case Some(text) =>
      match parse(text)
      case None => FallbackFor(tool, reply)
      case Some(v) =>
        if tool != Entities then Parsed(v)
        else
          match Aggregate(v)
          case None => FallbackFor(tool, reply)
          case Some(a) => Parsed(a)
  }

  /** `extract_entities` as the source runs it: the reply pipeline, then a loop extending
      `all_entities` with each category list. */
  method ExtractEntities(reply: string, parse: string -> Option<Json>) returns (out: ToolReply)
    ensures out == RunTool(Entities, reply, parse)
  {
    var cleaned := Cleaned(reply);
    if cleaned.None? {
      return FallbackFor(Entities, reply);
    }
    var parsed := parse(cleaned.value);
    if parsed.None? || !parsed.value.JObj? {
      return FallbackFor(Entities, reply);
    }
    var entitiesByType := parsed.value;
    var values := DictValues(entitiesByType.members);
    var allEntities: seq<Json> := [];
    var i := 0;
    while i < |values|
      invariant 0 <= i <= |values|
      invariant Extended([], values) == Extended(allEntities, values[i..])
    {
      var more := Iterated(values[i]);
      if more.None? {
        return FallbackFor(Entities, reply);
      }
      allEntities := allEntities + more.value;
      i := i + 1;
    }
    if exists x :: x in allEntities && !Hashable(x) {
      return FallbackFor(Entities, reply);
    }
    out := Parsed(JObj([("entities_by_type", entitiesByType),
                        ("total_entities", JNum(|allEntities| as real)),
                        ("unique_entities", JNum(DistinctCount(allEntities) as real)),
                        ("entities_found", JArr(Strings.Take(allEntities, EntitiesFoundLimit)))]));
  }
}
