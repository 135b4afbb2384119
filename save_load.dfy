/**
 * The chart save/load store: charts, study templates, drawing templates,
 * chart templates and per-chart drawings kept in memory, with a flag that
 * marks unsaved changes.
 *
 * Contents and drawing states are opaque JSON text.
 */
module SaveLoad {
  import opened Base

  /** A chart as the caller hands it in; an empty id means "no id". */
  datatype ChartData = ChartData(id: string, name: string, symbol: string, resolution: string, content: string)

  /** A saved chart: the caller's fields, its id and the save time in seconds. */
  datatype Chart = Chart(id: string, name: string, symbol: string, resolution: string, content: string, timestamp: int)

  datatype StudyTemplate = StudyTemplate(name: string, content: string)

  datatype DrawingTemplate = DrawingTemplate(name: string, content: string, toolName: string)

  datatype ChartTemplate = ChartTemplate(name: string, content: string)

  type State = string

  /** One `[key, state]` entry of `state.sources`; `None` is a null state. */
  type Source = (string, Option<State>)

  // ------------------------------------------------------------ keyed lists

  /** The key of every element, in order. */
  function Keys<T, K>(s: seq<T>, key: T -> K): (ks: seq<K>)
    ensures |ks| == |s|
    ensures forall i :: 0 <= i < |s| ==> ks[i] == key(s[i])
  {
    seq(|s|, i requires 0 <= i < |s| => key(s[i]))
  }

  /** The position of the first `k` in `keys`, or -1 (`findIndex`). */
  function IndexOf<K(==)>(keys: seq<K>, k: K): (r: int)
    ensures -1 <= r < |keys|
    ensures r == -1 <==> k !in keys
    ensures r >= 0 ==> keys[r] == k && forall j :: 0 <= j < r ==> keys[j] != k
    decreases |keys|
  {
    if keys == [] then -1
    else if keys[0] == k then 0
    else
      var r := IndexOf(keys[1..], k);
      assert forall j :: 1 <= j < |keys| ==> keys[j] == keys[1..][j - 1];
      if r == -1 then -1 else r + 1
  }

  lemma IndexOfIs<K>(keys: seq<K>, k: K, i: nat)
    requires i < |keys| && keys[i] == k
    requires forall j :: 0 <= j < i ==> keys[j] != k
    ensures IndexOf(keys, k) == i
  {
  }

  /** No key occurs twice. */
  predicate Unique<K(==)>(keys: seq<K>) {
    forall i, j :: 0 <= i < j < |keys| ==> keys[i] != keys[j]
  }

  /** `splice(i, 1)`. */
  function RemoveAt<T>(s: seq<T>, i: nat): seq<T>
    requires i < |s|
  {
    s[..i] + s[i + 1..]
  }

  /**
   * The list without its first element keyed `k` (unchanged when there is
   * none).
   */
  function Without<T, K(==)>(s: seq<T>, key: T -> K, k: K): (r: seq<T>)
    ensures k !in Keys(s, key) ==> r == s
    ensures k in Keys(s, key) ==> |r| == |s| - 1
  {
    var i := IndexOf(Keys(s, key), k);
    if i < 0 then s else RemoveAt(s, i)
  }

  /** Past the removed position, the elements shift down by one. */
  lemma WithoutShifts<T, K>(s: seq<T>, key: T -> K, k: K)
    requires k in Keys(s, key)
    ensures var i := IndexOf(Keys(s, key), k); var w := Without(s, key, k);
      forall j :: 0 <= j < |w| ==> w[j] == (if j < i then s[j] else s[j + 1])
  {
    var i := IndexOf(Keys(s, key), k);
    assert Without(s, key, k) == s[..i] + s[i + 1..];
  }

  /** Removing the first element keyed `k` keeps every element with another key, and adds none. */
  lemma WithoutKeeps<T, K>(s: seq<T>, key: T -> K, k: K)
    ensures forall j :: 0 <= j < |s| && key(s[j]) != k ==> s[j] in Without(s, key, k)
    ensures forall x :: x in Without(s, key, k) ==> x in s
  {
    if k in Keys(s, key) {
      var i := IndexOf(Keys(s, key), k);
      var w := Without(s, key, k);
      assert w == s[..i] + s[i + 1..];
      assert key(s[i]) == k;
      forall j | 0 <= j < |s| && key(s[j]) != k ensures s[j] in w {
        if j < i { assert w[j] == s[j]; } else { assert w[j - 1] == s[j]; }
      }
      forall x | x in w ensures x in s {
        assert x in s[..i] || x in s[i + 1..];
      }
    }
  }

  /** `filter(x => key(x) !== k)`: every element keyed `k` removed. */
  function DropAll<T, K(==)>(s: seq<T>, key: T -> K, k: K): (r: seq<T>)
    ensures |r| <= |s|
    ensures forall x :: x in r ==> x in s && key(x) != k
    ensures forall j :: 0 <= j < |s| && key(s[j]) != k ==> s[j] in r
    decreases |s|
  {
    if s == [] then []
    else
      var rest := DropAll(s[1..], key, k);
      assert forall j :: 1 <= j < |s| ==> s[j] == s[1..][j - 1];
      if key(s[0]) == k then rest else [s[0]] + rest
  }

  /** `filter` keeps order: the kept part of `a + b` is that of `a`, then that of `b`. */
  lemma {:induction false} DropAllConcat<T, K>(a: seq<T>, b: seq<T>, key: T -> K, k: K)
    ensures DropAll(a + b, key, k) == DropAll(a, key, k) + DropAll(b, key, k)
    decreases |a|
  {
    if a == [] {
      assert a + b == b;
    } else {
      assert (a + b)[0] == a[0];
      assert (a + b)[1..] == a[1..] + b;
      DropAllConcat(a[1..], b, key, k);
    }
  }

  /**
   * With unique keys, removing the first element keyed `k` removes every
   * one, and the keys left are still unique.
   */
  lemma WithoutUnique<T, K>(s: seq<T>, key: T -> K, k: K)
    requires Unique(Keys(s, key))
    ensures var w := Without(s, key, k);
      Unique(Keys(w, key)) && forall j :: 0 <= j < |w| ==> key(w[j]) != k
  {
    var w := Without(s, key, k);
    var i := IndexOf(Keys(s, key), k);
    if i >= 0 {
      WithoutShifts(s, key, k);
      forall a, b | 0 <= a < b < |w| ensures key(w[a]) != key(w[b]) {
        var a', b' := if a < i then a else a + 1, if b < i then b else b + 1;
        assert w[a] == s[a'] && w[b] == s[b'] && a' < b';
      }
      forall j | 0 <= j < |w| ensures key(w[j]) != k {
        var j' := if j < i then j else j + 1;
        assert w[j] == s[j'] && j' != i;
      }
    }
  }

  /**
   * Replacing by key keeps keys unique: the new element is last, its key
   * occurs nowhere else, and every element with another key stays.
   */
  lemma ReplaceKeepsUnique<T, K>(s: seq<T>, key: T -> K, x: T)
    requires Unique(Keys(s, key))
    ensures var after := Without(s, key, key(x)) + [x];
      && Unique(Keys(after, key))
      && after[|after| - 1] == x
      && (forall j :: 0 <= j < |after| - 1 ==> key(after[j]) != key(x))
      && (forall j :: 0 <= j < |s| && key(s[j]) != key(x) ==> s[j] in after)
      && IndexOf(Keys(after, key), key(x)) == |after| - 1
  {
    var w := Without(s, key, key(x));
    var after := w + [x];
    WithoutUnique(s, key, key(x));
    forall j | 0 <= j < |w| ensures after[j] == w[j] { }
    IndexOfIs(Keys(after, key), key(x), |after| - 1);
    forall a, b | 0 <= a < b < |after| ensures key(after[a]) != key(after[b]) {
      assert after[a] == w[a];
      if b < |w| {
        assert after[b] == w[b];
      }
    }
    WithoutKeeps(s, key, key(x));
  }

  // ------------------------------------------------------------ keys of the collections

  function ChartId(c: Chart): string { c.id }

  function StudyName(t: StudyTemplate): string { t.name }

  /** Drawing templates are told apart by template name and tool name together. */
  function TemplateKey(t: DrawingTemplate): (string, string) { (t.name, t.toolName) }

  function ThemeName(t: ChartTemplate): string { t.name }

  /** `Math.round(nowMs / 1000)`: seconds, halves rounded up. */
  function Timestamp(nowMs: int): (s: int)
    ensures -500 <= nowMs - 1000 * s < 500
  {
    var q := (nowMs + 500) / 1000;
    assert nowMs + 500 == 1000 * q + (nowMs + 500) % 1000;
    q
  }

  /** `${layoutId}/${chartId}`. */
  function DrawingKey(layoutId: string, chartId: string): (r: string)
    ensures |r| == |layoutId| + 1 + |chartId|
    ensures r[..|layoutId|] == layoutId && r[|layoutId|] == '/' && r[|layoutId| + 1..] == chartId
  {
    layoutId + "/" + chartId
  }

  /**
   * When layout ids hold no '/', the key tells the layout/chart pair apart:
   * two pairs share a key exactly when they are the same pair.
   */
  lemma DrawingKeyInjective(layout1: string, chart1: string, layout2: string, chart2: string)
    requires '/' !in layout1 && '/' !in layout2
    ensures DrawingKey(layout1, chart1) == DrawingKey(layout2, chart2) <==> layout1 == layout2 && chart1 == chart2
  {
    var k1, k2 := DrawingKey(layout1, chart1), DrawingKey(layout2, chart2);
    if k1 == k2 && |layout1| != |layout2| {
      assert false;
    }
  }

  /** Two different layout/chart pairs can share one drawing key. */
  lemma DrawingKeyCollides()
    ensures DrawingKey("a/b", "c") == DrawingKey("a", "b/c")
  {
  }

  // ------------------------------------------------------------ line tools

  /** One source entry applied to a chart's drawings: null deletes, anything else writes. */
  function ApplySource(entry: map<string, State>, source: Source): map<string, State> {
    if source.1.None? then entry - {source.0} else entry[source.0 := source.1.value]
  }

  /** The sources applied in order. */
  function ApplySources(entry: map<string, State>, sources: seq<Source>): (r: map<string, State>)
    ensures forall x :: x in r ==> x in entry || exists j :: 0 <= j < |sources| && sources[j].0 == x
    decreases |sources|
  {
    if sources == [] then entry
    else ApplySource(ApplySources(entry, sources[..|sources| - 1]), sources[|sources| - 1])
  }

  lemma ApplySourcesStep(entry: map<string, State>, sources: seq<Source>, i: nat)
    requires i < |sources|
    ensures ApplySources(entry, sources[..i + 1]) == ApplySource(ApplySources(entry, sources[..i]), sources[i])
  {
    assert sources[..i + 1][..i] == sources[..i];
  }

  /** The position of the last source for key `k`, or -1. */
  function LastFor(sources: seq<Source>, k: string): (r: int)
    ensures -1 <= r < |sources|
    ensures r >= 0 ==> sources[r].0 == k
    ensures forall j :: r < j < |sources| ==> sources[j].0 != k
    decreases |sources|
  {
    if sources == [] then -1
    else if sources[|sources| - 1].0 == k then |sources| - 1
    else LastFor(sources[..|sources| - 1], k)
  }

  /**
   * The last source for a key decides it: a null state leaves it absent,
   * any other state is its value; a key with no source keeps its old entry.
   */
  lemma {:induction false} LastSourceWins(entry: map<string, State>, sources: seq<Source>, k: string)
    ensures var r := ApplySources(entry, sources);
      var last := LastFor(sources, k);
      && (last < 0 ==> (k in r <==> k in entry) && (k in r ==> r[k] == entry[k]))
      && (last >= 0 && sources[last].1.None? ==> k !in r)
      && (last >= 0 && sources[last].1.Some? ==> k in r && r[k] == sources[last].1.value)
    decreases |sources|
  {
    if sources != [] {
      LastSourceWins(entry, sources[..|sources| - 1], k);
    }
  }

  // ------------------------------------------------------------ the store

  class Store {
    var charts: seq<Chart>
    var studyTemplates: seq<StudyTemplate>
    var drawingTemplates: seq<DrawingTemplate>
    var chartTemplates: seq<ChartTemplate>
    var drawings: map<string, map<string, State>>
    var isDirty: bool

    /** The store starts from what was persisted, with nothing unsaved. */
    constructor (charts: seq<Chart>, studyTemplates: seq<StudyTemplate>, drawingTemplates: seq<DrawingTemplate>,
                 chartTemplates: seq<ChartTemplate>, drawings: map<string, map<string, State>>)
      ensures this.charts == charts && this.studyTemplates == studyTemplates
      ensures this.drawingTemplates == drawingTemplates && this.chartTemplates == chartTemplates
      ensures this.drawings == drawings && !isDirty
    {
      this.charts := charts;
      this.studyTemplates := studyTemplates;
      this.drawingTemplates := drawingTemplates;
      this.chartTemplates := chartTemplates;
      this.drawings := drawings;
      this.isDirty := false;
    }

    // ---------------------------------------------------------- charts

    /**
     * `removeChart(id)`: delete the first chart with that id and mark the
     * store dirty; when there is none, reject and change nothing.
     */
    method RemoveChart(id: string) returns (r: Result<(), string>)
      modifies this`charts, this`isDirty
      ensures r.Err? <==> id !in Keys(old(charts), ChartId)
      ensures r.Err? ==> r.error == "The chart does not exist" && isDirty == old(isDirty)
      ensures r.Ok? ==> isDirty
      ensures charts == Without(old(charts), ChartId, id)
    {
      var i := 0;
      while i < |charts|
        invariant 0 <= i <= |charts|
        invariant forall j :: 0 <= j < i ==> charts[j].id != id
      {
        if charts[i].id == id {
          IndexOfIs(Keys(charts, ChartId), id, i);
          charts := RemoveAt(charts, i);
          isDirty := true;
          return Ok(());
        }
        i := i + 1;
      }
      return Err("The chart does not exist");
    }

    /**
     * `_generateUniqueChartId()`: the first of the random draws that is not
     * the id of a stored chart.
     */
    method GenerateUniqueChartId(draws: seq<string>) returns (uid: string)
      requires exists k :: 0 <= k < |draws| && draws[k] !in Keys(charts, ChartId)
      ensures uid !in Keys(charts, ChartId)
      ensures exists k :: (0 <= k < |draws| && draws[k] == uid
                           && forall j :: 0 <= j < k ==> draws[j] in Keys(charts, ChartId))
    {
      var existingIds := Keys(charts, ChartId);
      var k := 0;
      while k < |draws|
        invariant 0 <= k <= |draws|
        invariant forall j :: 0 <= j < k ==> draws[j] in existingIds
      {
        if draws[k] !in existingIds {
          return draws[k];
        }
        k := k + 1;
      }
      assert false;
    }

    /**
     * `saveChart(chartData)`: a chart without an id gets a fresh one;
     * a chart with an id first has the stored chart with that id removed.
     * The chart is then appended with the save time and the store is dirty.
     */
    method SaveChart(data: ChartData, nowMs: int, draws: seq<string>) returns (id: string)
      requires data.id != "" || exists k :: 0 <= k < |draws| && draws[k] !in Keys(charts, ChartId)
      modifies this`charts, this`isDirty
      ensures data.id != "" ==> id == data.id
      ensures data.id == "" ==> id !in Keys(old(charts), ChartId)
      ensures charts == (if data.id == "" then old(charts) else Without(old(charts), ChartId, data.id))
        + [Chart(id, data.name, data.symbol, data.resolution, data.content, Timestamp(nowMs))]
      ensures isDirty
    {
      if data.id == "" {
        id := GenerateUniqueChartId(draws);
      } else {
        id := data.id;
        var _ := RemoveChart(id);
      }
      var saved := Chart(id, data.name, data.symbol, data.resolution, data.content, Timestamp(nowMs));
      charts := charts + [saved];
      isDirty := true;
    }

    /** `getChartContent(id)`: the content of the first chart with that id. */
    method GetChartContent(id: string) returns (r: Result<string, string>)
      ensures r.Err? <==> id !in Keys(charts, ChartId)
      ensures r.Err? ==> r.error == "The chart does not exist"
      ensures r.Ok? ==> r.value == charts[IndexOf(Keys(charts, ChartId), id)].content
    {
      var i := 0;
      while i < |charts|
        invariant 0 <= i <= |charts|
        invariant forall j :: 0 <= j < i ==> charts[j].id != id
      {
        if charts[i].id == id {
          IndexOfIs(Keys(charts, ChartId), id, i);
          return Ok(charts[i].content);
        }
        i := i + 1;
      }
      return Err("The chart does not exist");
    }

    // ---------------------------------------------------------- study templates

    /** `removeStudyTemplate({name})`: delete the first template with that name. */
    method RemoveStudyTemplate(name: string) returns (r: Result<(), string>)
      modifies this`studyTemplates, this`isDirty
      ensures r.Err? <==> name !in Keys(old(studyTemplates), StudyName)
      ensures r.Err? ==> r.error == "The study template does not exist" && isDirty == old(isDirty)
      ensures r.Ok? ==> isDirty
      ensures studyTemplates == Without(old(studyTemplates), StudyName, name)
    {
      var i := 0;
      while i < |studyTemplates|
        invariant 0 <= i <= |studyTemplates|
        invariant forall j :: 0 <= j < i ==> studyTemplates[j].name != name
      {
        if studyTemplates[i].name == name {
          IndexOfIs(Keys(studyTemplates, StudyName), name, i);
          studyTemplates := RemoveAt(studyTemplates, i);
          isDirty := true;
          return Ok(());
        }
        i := i + 1;
      }
      return Err("The study template does not exist");
    }

    /** `getStudyTemplateContent({name})`: the content of the first template with that name. */
    method GetStudyTemplateContent(name: string) returns (r: Result<string, string>)
      ensures r.Err? <==> name !in Keys(studyTemplates, StudyName)
      ensures r.Err? ==> r.error == "The study template does not exist"
      ensures r.Ok? ==> r.value == studyTemplates[IndexOf(Keys(studyTemplates, StudyName), name)].content
    {
      var i := 0;
      while i < |studyTemplates|
        invariant 0 <= i <= |studyTemplates|
        invariant forall j :: 0 <= j < i ==> studyTemplates[j].name != name
      {
        if studyTemplates[i].name == name {
          IndexOfIs(Keys(studyTemplates, StudyName), name, i);
          return Ok(studyTemplates[i].content);
        }
        i := i + 1;
      }
      return Err("The study template does not exist");
    }

    /**
     * `saveStudyTemplate(t)`: drop the first template with the same name,
     * append `t` and mark the store dirty.
     */
    method SaveStudyTemplate(t: StudyTemplate)
      modifies this`studyTemplates, this`isDirty
      ensures studyTemplates == Without(old(studyTemplates), StudyName, t.name) + [t]
      ensures isDirty
    {
      var i := 0;
      while i < |studyTemplates|
        invariant 0 <= i <= |studyTemplates|
        invariant studyTemplates == old(studyTemplates)
        invariant forall j :: 0 <= j < i ==> studyTemplates[j].name != t.name
      {
        if studyTemplates[i].name == t.name {
          IndexOfIs(Keys(studyTemplates, StudyName), t.name, i);
          studyTemplates := RemoveAt(studyTemplates, i);
          break;
        }
        i := i + 1;
      }
      studyTemplates := studyTemplates + [t];
      isDirty := true;
    }

    // ---------------------------------------------------------- drawing templates

    /** `removeDrawingTemplate(toolName, templateName)`: by name and tool together. */
    method RemoveDrawingTemplate(toolName: string, templateName: string) returns (r: Result<(), string>)
      modifies this`drawingTemplates, this`isDirty
      ensures r.Err? <==> (templateName, toolName) !in Keys(old(drawingTemplates), TemplateKey)
      ensures r.Err? ==> r.error == "The drawing template does not exist" && isDirty == old(isDirty)
      ensures r.Ok? ==> isDirty
      ensures drawingTemplates == Without(old(drawingTemplates), TemplateKey, (templateName, toolName))
    {
      var i := 0;
      while i < |drawingTemplates|
        invariant 0 <= i <= |drawingTemplates|
        invariant forall j :: 0 <= j < i ==> TemplateKey(drawingTemplates[j]) != (templateName, toolName)
      {
        if drawingTemplates[i].name == templateName && drawingTemplates[i].toolName == toolName {
          IndexOfIs(Keys(drawingTemplates, TemplateKey), (templateName, toolName), i);
          drawingTemplates := RemoveAt(drawingTemplates, i);
          isDirty := true;
          return Ok(());
        }
        i := i + 1;
      }
      return Err("The drawing template does not exist");
    }

    /** `loadDrawingTemplate(toolName, templateName)`: by name and tool together. */
    method LoadDrawingTemplate(toolName: string, templateName: string) returns (r: Result<string, string>)
      ensures r.Err? <==> (templateName, toolName) !in Keys(drawingTemplates, TemplateKey)
      ensures r.Err? ==> r.error == "The drawing template does not exist"
      ensures r.Ok? ==> exists i :: (0 <= i < |drawingTemplates|
                                    && drawingTemplates[i].name == templateName && drawingTemplates[i].toolName == toolName
                                    && r.value == drawingTemplates[i].content)
      ensures r.Ok? ==> r.value == drawingTemplates[IndexOf(Keys(drawingTemplates, TemplateKey), (templateName, toolName))].content
    {
      var i := 0;
      while i < |drawingTemplates|
        invariant 0 <= i <= |drawingTemplates|
        invariant forall j :: 0 <= j < i ==> TemplateKey(drawingTemplates[j]) != (templateName, toolName)
      {
        if drawingTemplates[i].name == templateName && drawingTemplates[i].toolName == toolName {
          IndexOfIs(Keys(drawingTemplates, TemplateKey), (templateName, toolName), i);
          return Ok(drawingTemplates[i].content);
        }
        i := i + 1;
      }
      return Err("The drawing template does not exist");
    }

    /**
     * `saveDrawingTemplate(toolName, templateName, content)`: drop the first
     * template with that name and tool, append the new one, mark dirty.
     */
    method SaveDrawingTemplate(toolName: string, templateName: string, content: string)
      modifies this`drawingTemplates, this`isDirty
      ensures drawingTemplates == Without(old(drawingTemplates), TemplateKey, (templateName, toolName))
        + [DrawingTemplate(templateName, content, toolName)]
      ensures isDirty
    {
      var i := 0;
      while i < |drawingTemplates|
        invariant 0 <= i <= |drawingTemplates|
        invariant drawingTemplates == old(drawingTemplates)
        invariant forall j :: 0 <= j < i ==> TemplateKey(drawingTemplates[j]) != (templateName, toolName)
      {
        if drawingTemplates[i].name == templateName && drawingTemplates[i].toolName == toolName {
          IndexOfIs(Keys(drawingTemplates, TemplateKey), (templateName, toolName), i);
          drawingTemplates := RemoveAt(drawingTemplates, i);
          break;
        }
        i := i + 1;
      }
      drawingTemplates := drawingTemplates + [DrawingTemplate(templateName, content, toolName)];
      isDirty := true;
    }

    /** `getDrawingTemplates()`: the template names (without their tools), in order. */
    function DrawingTemplateNames(): (names: seq<string>)
      reads this
      ensures |names| == |drawingTemplates|
      ensures forall i :: 0 <= i < |names| ==> names[i] == drawingTemplates[i].name
    {
      seq(|drawingTemplates|, i requires 0 <= i < |drawingTemplates| reads this => drawingTemplates[i].name)
    }

    // ---------------------------------------------------------- chart templates

    /** `getAllChartTemplates()`: the template names, in order. */
    function ChartTemplateNames(): (names: seq<string>)
      reads this
      ensures |names| == |chartTemplates|
      ensures forall i :: 0 <= i < |names| ==> names[i] == chartTemplates[i].name
    {
      Keys(chartTemplates, ThemeName)
    }

    /**
     * `saveChartTemplate(name, content)`: overwrite the content of the first
     * template with that name where it stands, or append a new one.
     */
    method SaveChartTemplate(name: string, content: string)
      modifies this`chartTemplates, this`isDirty
      ensures chartTemplates == Upserted(old(chartTemplates), name, content)
      ensures isDirty
    {
      var i := IndexOf(Keys(chartTemplates, ThemeName), name);
      if i >= 0 {
        chartTemplates := chartTemplates[i := chartTemplates[i].(content := content)];
      } else {
        chartTemplates := chartTemplates + [ChartTemplate(name, content)];
      }
      isDirty := true;
    }

    /** `removeChartTemplate(name)`: drop every template with that name, mark dirty. */
    method RemoveChartTemplate(name: string)
      modifies this`chartTemplates, this`isDirty
      ensures chartTemplates == DropAll(old(chartTemplates), ThemeName, name)
      ensures isDirty
    {
      chartTemplates := DropAll(chartTemplates, ThemeName, name);
      isDirty := true;
    }

    /** `getChartTemplateContent(name)`: the first template's content, or nothing. */
    function ChartTemplateContent(name: string): (r: Option<string>)
      reads this
      ensures r.None? <==> forall i :: 0 <= i < |chartTemplates| ==> chartTemplates[i].name != name
      ensures r.Some? ==> exists i :: (0 <= i < |chartTemplates| && chartTemplates[i].name == name
                                      && r.value == chartTemplates[i].content
                                      && forall j :: 0 <= j < i ==> chartTemplates[j].name != name)
    {
      var i := IndexOf(Keys(chartTemplates, ThemeName), name);
      if i < 0 then None else Some(chartTemplates[i].content)
    }

    // ---------------------------------------------------------- line tools

    /**
     * `saveLineToolsAndGroups(layoutId, chartId, state)`: nothing at all when
     * `state.sources` is missing; otherwise the sources applied in order to
     * the drawings under `layoutId/chartId` (created empty when absent),
     * and the store is dirty.
     */
    method SaveLineToolsAndGroups(layoutId: string, chartId: string, sources: Option<seq<Source>>)
      modifies this`drawings, this`isDirty
      ensures sources.None? ==> drawings == old(drawings) && isDirty == old(isDirty)
      ensures sources.Some? ==>
        var k := DrawingKey(layoutId, chartId);
        var base := if k in old(drawings) then old(drawings)[k] else map[];
        drawings == old(drawings)[k := ApplySources(base, sources.value)] && isDirty
    {
      if sources.None? {
        return;
      }
      var drawingsIn := sources.value;
      var k := DrawingKey(layoutId, chartId);
      var entry := if k in drawings then drawings[k] else map[];
      ghost var base := entry;
      var i := 0;
      while i < |drawingsIn|
        invariant 0 <= i <= |drawingsIn|
        invariant entry == ApplySources(base, drawingsIn[..i])
        invariant drawings == old(drawings)
      {
        var (key, state) := drawingsIn[i];
        ApplySourcesStep(base, drawingsIn, i);
        if state.None? {
          entry := entry - {key};
        } else {
          entry := entry[key := state.value];
        }
        i := i + 1;
      }
      assert drawingsIn[..i] == drawingsIn;
      drawings := drawings[k := entry];
      isDirty := true;
    }

    /**
     * `loadLineToolsAndGroups(layoutId, chartId)`: nothing for an empty
     * layout id or an unknown layout/chart, else a copy of its drawings.
     */
    method LoadLineToolsAndGroups(layoutId: string, chartId: string) returns (r: Option<map<string, State>>)
      ensures r.None? <==> layoutId == "" || DrawingKey(layoutId, chartId) !in drawings
      ensures r.Some? ==> r.value == drawings[DrawingKey(layoutId, chartId)]
    {
      if layoutId == "" {
        return None;
      }
      var k := DrawingKey(layoutId, chartId);
      if k !in drawings {
        return None;
      }
      var rawSources := drawings[k];
      var sources: map<string, State> := map[];
      var todo := rawSources.Keys;
      while todo != {}
        invariant todo <= rawSources.Keys
        invariant sources.Keys == rawSources.Keys - todo
        invariant forall key :: key in sources ==> sources[key] == rawSources[key]
        decreases todo
      {
        var key :| key in todo;
        sources := sources[key := rawSources[key]];
        todo := todo - {key};
      }
      return Some(sources);
    }
  }

  /**
   * A chart template list with `name`'s first template given `content` in
   * place, or a new template appended when there is none.
   */
  function Upserted(s: seq<ChartTemplate>, name: string, content: string): (r: seq<ChartTemplate>)
    ensures name in Keys(s, ThemeName) ==> |r| == |s|
    ensures name in Keys(s, ThemeName) ==> var i := IndexOf(Keys(s, ThemeName), name);
      && 0 <= i < |s| && r[i] == ChartTemplate(name, content)
      && forall j :: 0 <= j < |s| && j != i ==> r[j] == s[j]
    ensures name !in Keys(s, ThemeName) ==> |r| == |s| + 1 && r[..|s|] == s
    ensures name !in Keys(s, ThemeName) ==> r[|s|] == ChartTemplate(name, content)
  {
    var i := IndexOf(Keys(s, ThemeName), name);
    if i >= 0 then s[i := ChartTemplate(name, content)] else s + [ChartTemplate(name, content)]
  }

  /**
   * After saving a chart template, looking its name up finds the saved
   * content; every template of another name is where it was.
   */
  lemma UpsertedThenFound(s: seq<ChartTemplate>, name: string, content: string)
    ensures var r := Upserted(s, name, content); var i := IndexOf(Keys(r, ThemeName), name);
      && i >= 0 && r[i].content == content
      && (forall j :: 0 <= j < |s| && s[j].name != name ==> r[j] == s[j])
  {
    var i := IndexOf(Keys(s, ThemeName), name);
    var r := Upserted(s, name, content);
    if i >= 0 {
      IndexOfIs(Keys(r, ThemeName), name, i);
    } else {
      IndexOfIs(Keys(r, ThemeName), name, |s|);
    }
  }

  /** Removing a chart template by name leaves none of that name and keeps the rest. */
  lemma DropAllThenAbsent(s: seq<ChartTemplate>, name: string)
    ensures IndexOf(Keys(DropAll(s, ThemeName, name), ThemeName), name) == -1
    ensures forall j :: 0 <= j < |s| && s[j].name != name ==> s[j] in DropAll(s, ThemeName, name)
  {
  }

  /**
   * Saving a chart under an existing id keeps ids unique: the saved chart
   * is last, its id occurs once, and every other chart stays.
   */
  lemma SaveChartKeepsIdsUnique(before: seq<Chart>, saved: Chart)
    requires Unique(Keys(before, ChartId))
    ensures var after := Without(before, ChartId, saved.id) + [saved];
      && Unique(Keys(after, ChartId))
      && after[|after| - 1] == saved
      && (forall j :: 0 <= j < |after| - 1 ==> after[j].id != saved.id)
      && (forall c :: c in before && c.id != saved.id ==> c in after)
      && IndexOf(Keys(after, ChartId), saved.id) == |after| - 1
  {
    ReplaceKeepsUnique(before, ChartId, saved);
    var after := Without(before, ChartId, saved.id) + [saved];
    forall c | c in before && c.id != saved.id ensures c in after {
      var j :| 0 <= j < |before| && before[j] == c;
    }
  }

  /** A chart saved under a fresh id keeps ids unique too. */
  lemma SaveFreshChartKeepsIdsUnique(before: seq<Chart>, saved: Chart)
    requires Unique(Keys(before, ChartId)) && saved.id !in Keys(before, ChartId)
    ensures Unique(Keys(before + [saved], ChartId))
    ensures IndexOf(Keys(before + [saved], ChartId), saved.id) == |before|
  {
    ReplaceKeepsUnique(before, ChartId, saved);
  }

  /**
   * Saving a study template replaces any earlier one of that name (when
   * names were unique) and keeps every other template.
   */
  lemma SaveStudyTemplateReplaces(before: seq<StudyTemplate>, t: StudyTemplate)
    requires Unique(Keys(before, StudyName))
    ensures var after := Without(before, StudyName, t.name) + [t];
      && Unique(Keys(after, StudyName))
      && after[|after| - 1] == t
      && (forall j :: 0 <= j < |after| - 1 ==> after[j].name != t.name)
      && (forall x :: x in before && x.name != t.name ==> x in after)
      && IndexOf(Keys(after, StudyName), t.name) == |after| - 1
  {
    ReplaceKeepsUnique(before, StudyName, t);
    var after := Without(before, StudyName, t.name) + [t];
    forall x | x in before && x.name != t.name ensures x in after {
      var j :| 0 <= j < |before| && before[j] == x;
    }
  }

  /**
   * Saving or removing a drawing template leaves a template with the same
   * name but another tool where it is.
   */
  lemma DrawingTemplateOtherToolKept(before: seq<DrawingTemplate>, name: string, tool: string, content: string,
                                     other: DrawingTemplate)
    requires other in before && other.name == name && other.toolName != tool
    ensures other in Without(before, TemplateKey, (name, tool))
    ensures other in Without(before, TemplateKey, (name, tool)) + [DrawingTemplate(name, content, tool)]
  {
    WithoutKeeps(before, TemplateKey, (name, tool));
    var j :| 0 <= j < |before| && before[j] == other;
  }
}
